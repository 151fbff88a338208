/**
 The build graph as a value: edges are numbered in creation order, nodes are keyed by path.
 This is what `BuildGraph` (a class, see BuildGraph.dfy) holds between two manifest lines, and what the
 builder, the planner and the scheduler only read.
 */
module Graphs {
  import opened Prelude

  type Path = string
  type EdgeId = nat

  datatype Edge = Edge(rule: string, inputs: seq<Path>, outputs: seq<Path>)

  datatype Node = Node(inEdge: Option<EdgeId>, outEdges: seq<EdgeId>)

  datatype Graph = Graph(edges: seq<Edge>, nodes: map<Path, Node>)

  predicate IsEdge(g: Graph, e: EdgeId)
  {
    e < |g.edges|
  }

  function AllEdges(g: Graph): set<EdgeId>
  {
    set e: EdgeId | 0 <= e < |g.edges| && IsEdge(g, e)
  }

  /** The links of edge `e` lead to nodes that know about `e`. */
  ghost predicate EdgeLinked(g: Graph, e: EdgeId)
    requires IsEdge(g, e)
  {
    && (forall p :: p in g.edges[e].inputs ==> p in g.nodes)
    && (forall p :: p in g.edges[e].outputs ==> p in g.nodes && g.nodes[p].inEdge == Some(e))
    && NoDup(g.edges[e].outputs)
  }

  /** The links of node `p` lead to edges that know about `p`, as often as the node lists them. */
  ghost predicate NodeLinked(g: Graph, p: Path)
    requires p in g.nodes
  {
    && (forall e :: g.nodes[p].inEdge == Some(e) ==> IsEdge(g, e) && p in g.edges[e].outputs)
    && (forall e :: e in g.nodes[p].outEdges ==> IsEdge(g, e))
    && (forall e: EdgeId :: IsEdge(g, e) ==> multiset(g.nodes[p].outEdges)[e] == multiset(g.edges[e].inputs)[p])
  }

  /** Links agree in both directions; a node has at most one producer because `inEdge` holds one. */
  ghost predicate Valid(g: Graph)
  {
    && (forall e :: IsEdge(g, e) ==> EdgeLinked(g, e))
    && (forall p :: p in g.nodes ==> NodeLinked(g, p))
  }

  function ProducerOf(g: Graph, p: Path): Option<EdgeId>
  {
    if p in g.nodes then g.nodes[p].inEdge else None
  }

  function ProducersOf(g: Graph, paths: set<Path>): set<EdgeId>
  {
    set p | p in paths && ProducerOf(g, p).Some? :: ProducerOf(g, p).value
  }

  lemma ProducersOfOneMore(g: Graph, paths: set<Path>, p: Path)
    ensures ProducerOf(g, p).Some? ==> ProducersOf(g, paths + {p}) == ProducersOf(g, paths) + {ProducerOf(g, p).value}
    ensures ProducerOf(g, p).None? ==> ProducersOf(g, paths + {p}) == ProducersOf(g, paths)
  {
  }

  /** The edges that produce some input of `e`. */
  function Producers(g: Graph, e: EdgeId): set<EdgeId>
  {
    if !IsEdge(g, e) then {} else ProducersOf(g, Elems(g.edges[e].inputs))
  }

  function ConsumersOf(g: Graph, paths: set<Path>): set<EdgeId>
  {
    set p, d | p in paths && p in g.nodes && d in g.nodes[p].outEdges :: d
  }

  /** The edges found on the `outEdges` lists of the outputs of `e`. */
  function Dependents(g: Graph, e: EdgeId): set<EdgeId>
  {
    if !IsEdge(g, e) then {} else ConsumersOf(g, Elems(g.edges[e].outputs))
  }

  /** `Edge::depends_on`: some input of `e` is an output of `other`. */
  ghost predicate DependsOn(g: Graph, e: EdgeId, other: EdgeId)
    requires IsEdge(g, e) && IsEdge(g, other)
  {
    exists p :: p in g.edges[e].inputs && p in g.edges[other].outputs
  }

  lemma NodeListsConsumers(g: Graph, p: Path, e: EdgeId)
    requires Valid(g) && IsEdge(g, e) && p in g.nodes
    ensures e in g.nodes[p].outEdges <==> p in g.edges[e].inputs
  {
    assert NodeLinked(g, p);
    assert e in multiset(g.nodes[p].outEdges) <==> e in g.nodes[p].outEdges;
    assert p in multiset(g.edges[e].inputs) <==> p in g.edges[e].inputs;
  }

  lemma ProducersAreEdges(g: Graph, e: EdgeId)
    requires Valid(g) && IsEdge(g, e)
    ensures Producers(g, e) <= AllEdges(g)
  {
    forall f | f in Producers(g, e)
      ensures f in AllEdges(g)
    {
      ProducersIn(g, e, f);
      var p :| p in g.edges[e].inputs && ProducerOf(g, p) == Some(f);
      assert NodeLinked(g, p);
    }
  }

  /**
   Three views of one dependency agree: following `in_edge` from the consumer, following `out_edges`
   from the producer, and comparing the two edges' node lists.
   */
  lemma DependencyViews(g: Graph, e: EdgeId, f: EdgeId)
    requires Valid(g) && IsEdge(g, e) && IsEdge(g, f)
    ensures f in Producers(g, e) <==> e in Dependents(g, f)
    ensures f in Producers(g, e) <==> DependsOn(g, e, f)
  {
    ProducersIn(g, e, f);
    DependentsIn(g, f, e);
    hide Producers, Dependents;
    if f in Producers(g, e) {
      var p :| p in g.edges[e].inputs && ProducerOf(g, p) == Some(f);
      assert NodeLinked(g, p);
      NodeListsConsumers(g, p, e);
      assert p in g.edges[f].outputs && e in g.nodes[p].outEdges;
    }
    if DependsOn(g, e, f) {
      var p :| p in g.edges[e].inputs && p in g.edges[f].outputs;
      assert EdgeLinked(g, f);
      assert ProducerOf(g, p) == Some(f);
    }
    if e in Dependents(g, f) {
      var p :| p in g.edges[f].outputs && p in g.nodes && e in g.nodes[p].outEdges;
      NodeListsConsumers(g, p, e);
    }
  }

  lemma ProducersIn(g: Graph, e: EdgeId, f: EdgeId)
    requires IsEdge(g, e)
    ensures f in Producers(g, e) <==> exists p :: p in g.edges[e].inputs && ProducerOf(g, p) == Some(f)
  {
    if p :| p in g.edges[e].inputs && ProducerOf(g, p) == Some(f) {
      assert p in Elems(g.edges[e].inputs);
    }
  }

  lemma DependentsIn(g: Graph, f: EdgeId, e: EdgeId)
    requires IsEdge(g, f)
    ensures e in Dependents(g, f) <==>
            exists p :: p in g.edges[f].outputs && p in g.nodes && e in g.nodes[p].outEdges
  {
    if p :| p in g.edges[f].outputs && p in g.nodes && e in g.nodes[p].outEdges {
      assert p in Elems(g.edges[f].outputs);
    }
  }

  /** One path has at most one producer. */
  lemma OneProducer(g: Graph, e: EdgeId, f: EdgeId, p: Path)
    requires Valid(g) && IsEdge(g, e) && IsEdge(g, f)
    requires p in g.edges[e].outputs && p in g.edges[f].outputs
    ensures e == f
  {
    assert EdgeLinked(g, e) && EdgeLinked(g, f);
  }

  // ------------------------------------------------------------------------------------------
  // Cycles and topological orders
  // ------------------------------------------------------------------------------------------

  /** A walk inside `S` from consumer to producer that ends where it began. */
  ghost predicate ClosedWalk(g: Graph, S: set<EdgeId>, w: seq<EdgeId>)
  {
    && |w| >= 2
    && w[0] == w[|w| - 1]
    && (forall i :: 0 <= i < |w| ==> w[i] in S && IsEdge(g, w[i]))
    && (forall i :: 0 <= i < |w| - 1 ==> w[i + 1] in Producers(g, w[i]))
  }

  ghost predicate Acyclic(g: Graph, S: set<EdgeId>)
  {
    !exists w :: ClosedWalk(g, S, w)
  }

  /** Some member of `T` needs nothing that `T` produces. */
  ghost predicate HasSource(g: Graph, T: set<EdgeId>)
  {
    exists e :: e in T && Producers(g, e) !! T
  }

  /** A non-empty set without a source contains a cycle: walk backwards until an edge repeats. */
  lemma NoSourceGivesCycle(g: Graph, T: set<EdgeId>)
    requires T <= AllEdges(g) && T != {} && !HasSource(g, T)
    ensures exists w :: ClosedWalk(g, T, w)
  {
    hide Producers;
    var w := BackwardWalk(g, T, |T| + 1);
    Pigeonhole(w, T);
    var i, j :| 0 <= i < j < |w| && w[i] == w[j];
    var c := w[i..j + 1];
    assert c[0] == w[i] && c[|c| - 1] == w[j];
    forall k | 0 <= k < |c| - 1
      ensures c[k + 1] in Producers(g, c[k])
    {
      assert c[k] == w[i + k] && c[k + 1] == w[i + k + 1];
    }
    forall k | 0 <= k < |c|
      ensures c[k] in T && IsEdge(g, c[k])
    {
      assert c[k] == w[i + k] && w[i + k] in Elems(w);
    }
    assert ClosedWalk(g, T, c);
  }

  lemma {:induction false} BackwardWalk(g: Graph, T: set<EdgeId>, n: nat) returns (w: seq<EdgeId>)
    requires T <= AllEdges(g) && T != {} && !HasSource(g, T)
    ensures |w| == n && Elems(w) <= T
    ensures forall i :: 0 <= i < |w| - 1 ==> w[i + 1] in Producers(g, w[i])
  {
    hide Producers, AllEdges;
    if n == 0 {
      w := [];
    } else if n == 1 {
      var first :| first in T;
      w := [first];
    } else {
      var shorter := BackwardWalk(g, T, n - 1);
      var last := shorter[|shorter| - 1];
      assert last in Elems(shorter);
      assert !(Producers(g, last) !! T);
      var next :| next in T && next in Producers(g, last);
      w := shorter + [next];
      ElemsAppend(shorter, next);
    }
  }

  /** "No closed walk" and "every non-empty part has a source" are the same condition. */
  lemma AcyclicIffSources(g: Graph, S: set<EdgeId>)
    requires S <= AllEdges(g)
    ensures Acyclic(g, S) <==> forall T :: T <= S && T != {} ==> HasSource(g, T)
  {
    if Acyclic(g, S) {
      forall T | T <= S && T != {}
        ensures HasSource(g, T)
      {
        if !HasSource(g, T) {
          NoSourceGivesCycle(g, T);
          var w :| ClosedWalk(g, T, w);
          assert ClosedWalk(g, S, w);
        }
      }
    } else {
      var w :| ClosedWalk(g, S, w);
      var T := Elems(w);
      forall e | e in T
        ensures !(Producers(g, e) !! T)
      {
        var i :| 0 <= i < |w| && w[i] == e;
        var k := if i == |w| - 1 then 0 else i;
        assert w[k] == e && w[k + 1] in Producers(g, e) && w[k + 1] in T;
      }
      assert w[0] in T;
      assert T <= S && T != {} && !HasSource(g, T);
    }
  }

  lemma AcyclicSubset(g: Graph, S: set<EdgeId>, T: set<EdgeId>)
    requires Acyclic(g, S) && T <= S
    ensures Acyclic(g, T)
  {
    if w :| ClosedWalk(g, T, w) {
      assert ClosedWalk(g, S, w);
    }
  }

  /** No edge of the order needs itself or a later edge. */
  ghost predicate Topological(g: Graph, order: seq<EdgeId>)
  {
    && NoDup(order)
    && (forall i :: 0 <= i < |order| ==> IsEdge(g, order[i]))
    && (forall i, j :: 0 <= i <= j < |order| ==> order[j] !in Producers(g, order[i]))
  }

  lemma TopologicalIsAcyclic(g: Graph, order: seq<EdgeId>)
    requires Topological(g, order)
    ensures Acyclic(g, Elems(order))
  {
    var S := Elems(order);
    forall T | T <= S && T != {}
      ensures HasSource(g, T)
    {
      var k := FirstIn(order, T);
      forall f | f in T
        ensures f !in Producers(g, order[k])
      {
        var j :| 0 <= j < |order| && order[j] == f;
        assert j >= k;
      }
      assert order[k] in T && Producers(g, order[k]) !! T;
    }
    AcyclicIffSources(g, S);
  }

  lemma FirstIn(order: seq<EdgeId>, T: set<EdgeId>) returns (k: nat)
    requires T <= Elems(order) && T != {}
    ensures k < |order| && order[k] in T
    ensures forall j :: 0 <= j < k ==> order[j] !in T
  {
    var e :| e in T;
    assert e in order;
    k := 0;
    while order[k] !in T
      invariant k < |order|
      invariant forall j :: 0 <= j < k ==> order[j] !in T
      invariant exists j :: k <= j < |order| && order[j] == e
      decreases |order| - k
    {
      k := k + 1;
    }
  }

  /** Every acyclic set of edges can be put in a topological order. */
  lemma {:induction false} AcyclicHasOrder(g: Graph, S: set<EdgeId>) returns (order: seq<EdgeId>)
    requires S <= AllEdges(g) && Acyclic(g, S)
    ensures Topological(g, order) && Elems(order) == S
    decreases |S|
  {
    if S == {} {
      order := [];
    } else {
      AcyclicIffSources(g, S);
      assert HasSource(g, S);
      var e :| e in S && Producers(g, e) !! S;
      AcyclicSubset(g, S, S - {e});
      var rest := AcyclicHasOrder(g, S - {e});
      order := [e] + rest;
      ElemsConcat([e], rest);
      PrependSource(g, e, rest);
    }
  }

  lemma PrependSource(g: Graph, e: EdgeId, rest: seq<EdgeId>)
    requires Topological(g, rest) && IsEdge(g, e) && e !in rest
    requires Producers(g, e) !! Elems([e] + rest)
    ensures Topological(g, [e] + rest)
  {
    var order := [e] + rest;
    forall i, j | 0 <= i <= j < |order|
      ensures order[j] !in Producers(g, order[i])
    {
      if i == 0 {
        assert order[j] in Elems(order);
      } else {
        assert order[i] == rest[i - 1] && order[j] == rest[j - 1];
      }
    }
    NoDupConcat([e], rest);
  }

  // ------------------------------------------------------------------------------------------
  // Closures and ancestors
  // ------------------------------------------------------------------------------------------

  ghost predicate ProducerClosed(g: Graph, S: set<EdgeId>)
  {
    forall e :: e in S ==> Producers(g, e) <= S
  }

  /** Within `allowed`, every consumer of a member is a member. */
  ghost predicate ConsumerClosed(g: Graph, allowed: set<EdgeId>, S: set<EdgeId>)
  {
    forall e, f :: e in S && f in Dependents(g, e) && f in allowed ==> f in S
  }

  /** `f` lies in every producer-closed set that holds the producers of `e`. */
  ghost predicate Ancestor(g: Graph, f: EdgeId, e: EdgeId)
  {
    forall S: set<EdgeId> :: ProducerClosed(g, S) && Producers(g, e) <= S ==> f in S
  }

  /** Every edge of the chain produces an input of the next one. */
  ghost predicate Chain(g: Graph, c: seq<EdgeId>)
  {
    c != [] && forall i :: 0 <= i < |c| - 1 ==> c[i] in Producers(g, c[i + 1])
  }

  lemma ChainBefore(g: Graph, f: EdgeId, c: seq<EdgeId>)
    requires Chain(g, c) && f in Producers(g, c[0])
    ensures Chain(g, [f] + c)
  {
    hide Producers;
    var longer := [f] + c;
    forall i | 0 <= i < |longer| - 1
      ensures longer[i] in Producers(g, longer[i + 1])
    {
      if i > 0 {
        assert c[i - 1] in Producers(g, c[i - 1 + 1]);
      }
    }
  }

  lemma ChainAfter(g: Graph, c: seq<EdgeId>, e: EdgeId)
    requires Chain(g, c) && c[|c| - 1] in Producers(g, e)
    ensures Chain(g, c + [e])
  {
    hide Producers;
  }

  /** A producer-closed set that holds the end of a chain holds all of it. */
  lemma {:induction false} ChainInClosed(g: Graph, S: set<EdgeId>, c: seq<EdgeId>, k: nat)
    requires ProducerClosed(g, S) && Chain(g, c) && k < |c| && c[|c| - 1] in S
    ensures c[k] in S
    decreases |c| - k
  {
    hide Producers;
    if k < |c| - 1 {
      ChainInClosed(g, S, c, k + 1);
      assert c[k] in Producers(g, c[k + 1]);
    }
  }

  /** An ancestor is an edge from which a chain of at least one link leads here. */
  lemma AncestorIffChain(g: Graph, f: EdgeId, e: EdgeId)
    requires Valid(g) && IsEdge(g, e)
    ensures Ancestor(g, f, e) <==> exists c :: Chain(g, c) && |c| > 1 && c[0] == f && c[|c| - 1] == e
  {
    hide Valid, Producers, AllEdges;
    if Ancestor(g, f, e) {
      var S := set h | h in AllEdges(g) && exists c :: Chain(g, c) && |c| > 1 && c[0] == h && c[|c| - 1] == e;
      forall h | h in Producers(g, e)
        ensures h in S
      {
        ProducersAreEdges(g, e);
        assert Chain(g, [h, e]);
      }
      forall h, p | h in S && p in Producers(g, h)
        ensures p in S
      {
        var c :| Chain(g, c) && |c| > 1 && c[0] == h && c[|c| - 1] == e;
        EdgeInAll(g, h);
        ProducersAreEdges(g, h);
        ChainBefore(g, p, c);
      }
      assert ProducerClosed(g, S) && f in S;
    }
    if c :| Chain(g, c) && |c| > 1 && c[0] == f && c[|c| - 1] == e {
      forall S: set<EdgeId> | ProducerClosed(g, S) && Producers(g, e) <= S
        ensures f in S
      {
        assert c[|c| - 2] in Producers(g, c[|c| - 2 + 1]);
        var before := c[..|c| - 1];
        assert Chain(g, before);
        ChainInClosed(g, S, before, 0);
      }
    }
  }

  lemma EdgeInAll(g: Graph, e: EdgeId)
    ensures e in AllEdges(g) <==> IsEdge(g, e)
  {
  }
}
