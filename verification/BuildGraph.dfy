/**
 `BuildGraph`: nodes by path, edges in creation order, linked in place. Pointers to nodes and edges are paths and
 edge numbers here. Every operation, also one that throws, leaves the links agreeing in both directions.
 */
module BuildGraph {
  import opened Prelude
  import opened Graphs

  datatype GraphError = AlreadyProduced(path: Path)

  // ------------------------------------------------------------------------------------------
  // The operations on values
  // ------------------------------------------------------------------------------------------

  function WithNode(g: Graph, p: Path): Graph
  {
    if p in g.nodes then g else g.(nodes := g.nodes[p := Node(None, [])])
  }

  function WithEdge(g: Graph, rule: string): Graph
  {
    g.(edges := g.edges + [Edge(rule, [], [])])
  }

  function WithInput(g: Graph, e: EdgeId, p: Path): Graph
    requires IsEdge(g, e) && p in g.nodes
  {
    Graph(g.edges[e := g.edges[e].(inputs := g.edges[e].inputs + [p])],
          g.nodes[p := g.nodes[p].(outEdges := g.nodes[p].outEdges + [e])])
  }

  function WithOutput(g: Graph, e: EdgeId, p: Path): Graph
    requires IsEdge(g, e) && p in g.nodes
  {
    Graph(g.edges[e := g.edges[e].(outputs := g.edges[e].outputs + [p])],
          g.nodes[p := g.nodes[p].(inEdge := Some(e))])
  }

  function Empty(): Graph
  {
    Graph([], map[])
  }

  lemma NodeKeepsValid(g: Graph, p: Path)
    requires Valid(g)
    ensures Valid(WithNode(g, p))
  {
    var g' := WithNode(g, p);
    forall e | IsEdge(g', e)
      ensures EdgeLinked(g', e)
    {
      assert EdgeLinked(g, e);
    }
    forall q | q in g'.nodes
      ensures NodeLinked(g', q)
    {
      if q in g.nodes {
        assert NodeLinked(g, q);
      } else {
        NewNodeIsUnused(g, q);
      }
    }
  }

  lemma NewNodeIsUnused(g: Graph, p: Path)
    requires Valid(g) && p !in g.nodes
    ensures forall e: EdgeId :: IsEdge(g, e) ==> multiset(g.edges[e].inputs)[p] == 0
  {
    forall e: EdgeId | IsEdge(g, e)
      ensures multiset(g.edges[e].inputs)[p] == 0
    {
      assert EdgeLinked(g, e);
      assert p in multiset(g.edges[e].inputs) <==> p in g.edges[e].inputs;
    }
  }

  lemma EdgeKeepsValid(g: Graph, rule: string)
    requires Valid(g)
    ensures Valid(WithEdge(g, rule))
  {
    var g', n := WithEdge(g, rule), |g.edges|;
    forall e: EdgeId | IsEdge(g', e)
      ensures EdgeLinked(g', e)
    {
      if e < n {
        assert EdgeLinked(g, e);
      }
    }
    forall q | q in g'.nodes
      ensures NodeLinked(g', q)
    {
      EdgeKeepsNode(g, rule, q);
    }
  }

  lemma EdgeKeepsNode(g: Graph, rule: string, q: Path)
    requires q in g.nodes && NodeLinked(g, q)
    ensures NodeLinked(WithEdge(g, rule), q)
  {
    var n := |g.edges|;
    assert n in multiset(g.nodes[q].outEdges) <==> n in g.nodes[q].outEdges;
    assert !IsEdge(g, n);
  }

  lemma InputKeepsEdge(g: Graph, e: EdgeId, p: Path, f: EdgeId)
    requires IsEdge(g, e) && p in g.nodes && IsEdge(g, f) && EdgeLinked(g, f)
    ensures IsEdge(WithInput(g, e, p), f) && EdgeLinked(WithInput(g, e, p), f)
  {
    hide NoDup;
  }

  lemma CountAppend<T>(s: seq<T>, x: T, y: T)
    ensures multiset(s + [x])[y] == multiset(s)[y] + if x == y then 1 else 0
  {
  }

  lemma InputKeepsNode(g: Graph, e: EdgeId, p: Path, q: Path)
    requires Valid(g) && IsEdge(g, e) && p in g.nodes && q in g.nodes
    ensures NodeLinked(WithInput(g, e, p), q)
  {
    var g' := WithInput(g, e, p);
    assert NodeLinked(g, q);
    hide Valid;
    CountAppend(g.edges[e].inputs, p, q);
    forall f: EdgeId | IsEdge(g', f)
      ensures multiset(g'.nodes[q].outEdges)[f] == multiset(g'.edges[f].inputs)[q]
    {
      assert IsEdge(g, f);
      CountAppend(g.nodes[p].outEdges, e, f);
      assert multiset(g.nodes[q].outEdges)[f] == multiset(g.edges[f].inputs)[q];
      hide NodeLinked;
    }
    OtherLinksStay(g, e, p, q);
    hide WithInput;
  }

  lemma OtherLinksStay(g: Graph, e: EdgeId, p: Path, q: Path)
    requires IsEdge(g, e) && p in g.nodes && q in g.nodes && NodeLinked(g, q)
    ensures var g' := WithInput(g, e, p);
      && (forall f :: g'.nodes[q].inEdge == Some(f) ==> IsEdge(g', f) && q in g'.edges[f].outputs)
      && (forall f :: f in g'.nodes[q].outEdges ==> IsEdge(g', f))
  {
  }

  lemma InputKeepsValid(g: Graph, e: EdgeId, p: Path)
    requires Valid(g) && IsEdge(g, e) && p in g.nodes
    ensures Valid(WithInput(g, e, p))
  {
    forall f: EdgeId | IsEdge(WithInput(g, e, p), f)
      ensures EdgeLinked(WithInput(g, e, p), f)
    {
      assert IsEdge(g, f) && EdgeLinked(g, f);
      InputKeepsEdge(g, e, p, f);
    }
    forall q | q in WithInput(g, e, p).nodes
      ensures NodeLinked(WithInput(g, e, p), q)
    {
      InputKeepsNode(g, e, p, q);
    }
    hide EdgeLinked, NodeLinked, WithInput;
  }

  lemma OutputKeepsEdge(g: Graph, e: EdgeId, p: Path, f: EdgeId)
    requires IsEdge(g, e) && p in g.nodes && g.nodes[p].inEdge.None? && IsEdge(g, f) && EdgeLinked(g, f)
    ensures IsEdge(WithOutput(g, e, p), f) && EdgeLinked(WithOutput(g, e, p), f)
  {
    assert p !in g.edges[f].outputs;
    NoDupAppend(g.edges[f].outputs, p);
    hide NoDup;
  }

  lemma OutputKeepsNode(g: Graph, e: EdgeId, p: Path, q: Path)
    requires Valid(g) && IsEdge(g, e) && p in g.nodes && g.nodes[p].inEdge.None? && q in g.nodes
    ensures NodeLinked(WithOutput(g, e, p), q)
  {
    assert NodeLinked(g, q);
    hide Valid;
  }

  lemma OutputKeepsValid(g: Graph, e: EdgeId, p: Path)
    requires Valid(g) && IsEdge(g, e) && p in g.nodes && g.nodes[p].inEdge.None?
    ensures Valid(WithOutput(g, e, p))
  {
    forall f: EdgeId | IsEdge(WithOutput(g, e, p), f)
      ensures EdgeLinked(WithOutput(g, e, p), f)
    {
      assert IsEdge(g, f) && EdgeLinked(g, f);
      OutputKeepsEdge(g, e, p, f);
    }
    forall q | q in WithOutput(g, e, p).nodes
      ensures NodeLinked(WithOutput(g, e, p), q)
    {
      OutputKeepsNode(g, e, p, q);
    }
    hide EdgeLinked, NodeLinked, WithOutput;
  }

  // ------------------------------------------------------------------------------------------
  // The class
  // ------------------------------------------------------------------------------------------

  class BuildGraph {
    var nodes: map<Path, Node>
    var edges: seq<Edge>

    ghost function Value(): Graph
      reads this
    {
      Graph(edges, nodes)
    }

    constructor ()
      ensures Value() == Empty() && Valid(Value())
    {
      nodes, edges := map[], [];
    }

    method GetOrCreateNode(p: Path)
      requires Valid(Value())
      modifies this
      ensures Value() == WithNode(old(Value()), p) && Valid(Value()) && p in nodes
    {
      NodeKeepsValid(Value(), p);
      if p in nodes {
        return;
      }
      nodes := nodes[p := Node(None, [])];
    }

    method CreateEdge(rule: string) returns (e: EdgeId)
      requires Valid(Value())
      modifies this
      ensures Value() == WithEdge(old(Value()), rule) && Valid(Value()) && e == |old(edges)|
    {
      EdgeKeepsValid(Value(), rule);
      e := |edges|;
      edges := edges + [Edge(rule, [], [])];
    }

    method AddInput(e: EdgeId, p: Path)
      requires Valid(Value()) && IsEdge(Value(), e) && p in nodes
      modifies this
      ensures Value() == WithInput(old(Value()), e, p) && Valid(Value())
    {
      InputKeepsValid(Value(), e, p);
      hide Valid;
      edges := edges[e := edges[e].(inputs := edges[e].inputs + [p])];
      nodes := nodes[p := nodes[p].(outEdges := nodes[p].outEdges + [e])];
    }

    /** A second producer for a node is refused, and nothing changes. */
    method AddOutput(e: EdgeId, p: Path) returns (r: Result<(), GraphError>)
      requires Valid(Value()) && IsEdge(Value(), e) && p in nodes
      modifies this
      ensures Valid(Value())
      ensures r.Ok? <==> old(nodes)[p].inEdge.None?
      ensures r.Ok? ==> Value() == WithOutput(old(Value()), e, p)
      ensures r.Err? ==> r.error == AlreadyProduced(p) && Value() == old(Value())
    {
      if nodes[p].inEdge.Some? {
        return Err(AlreadyProduced(p));
      }
      OutputKeepsValid(Value(), e, p);
      hide Valid;
      edges := edges[e := edges[e].(outputs := edges[e].outputs + [p])];
      nodes := nodes[p := nodes[p].(inEdge := Some(e))];
      return Ok(());
    }
  }
}
