/**
 What a scheduled build does to the files. Commands read when they start and write when they end, at any
 moments the scheduler allows; the outcome is nevertheless the one of the serial executor.
 */
module Execution {
  import opened Prelude
  import opened Graphs
  import opened Planner
  import opened World

  /**
   The shape that `Builder` gives a plan: a part `P` of an upstream-closed set `C` of edges that contains,
   with an edge, all its consumers in `C`.
   */
  ghost predicate Sealed(g: Graph, P: set<EdgeId>, C: set<EdgeId>)
  {
    && P <= C <= AllEdges(g)
    && ProducerClosed(g, C)
    && ConsumerClosed(g, C, P)
  }

  /** `D` holds, with each planned member, the planned producers of that member. */
  ghost predicate PrefixOf(g: Graph, P: set<EdgeId>, D: set<EdgeId>)
  {
    D <= P && forall d :: d in D ==> Producers(g, d) * P <= D
  }

  /** Once its planned producers are in a prefix, all planned ancestors of an edge are. */
  lemma AncestorsInPrefix(g: Graph, P: set<EdgeId>, C: set<EdgeId>, D: set<EdgeId>, f: EdgeId, e: EdgeId)
    requires Valid(g) && Sealed(g, P, C) && PrefixOf(g, P, D)
    requires e in P && Producers(g, e) * P <= D
    requires f in P && Ancestor(g, f, e)
    ensures f in D
  {
    hide Producers, Dependents;
    var S := set x | x in C && (x in P ==> x in D);
    forall x | x in S
      ensures Producers(g, x) <= S
    {
      forall y | y in Producers(g, x)
        ensures y in S
      {
        StepBack(g, P, C, D, x, y);
      }
    }
    assert ProducerClosed(g, S);
    assert Producers(g, e) <= S;
    assert f in S;
  }

  lemma StepBack(g: Graph, P: set<EdgeId>, C: set<EdgeId>, D: set<EdgeId>, x: EdgeId, y: EdgeId)
    requires Valid(g) && Sealed(g, P, C) && PrefixOf(g, P, D)
    requires x in C && (x in P ==> x in D) && y in Producers(g, x)
    ensures y in C && (y in P ==> y in D)
  {
    if y in P {
      DependencyViews(g, x, y);
      assert x in P;
    }
  }

  lemma OutputsApart(w: World, e: EdgeId, f: EdgeId)
    requires Valid(w.g) && Declared(w) && IsEdge(w.g, e) && IsEdge(w.g, f) && e != f
    ensures w.tools.outputs(w.command[e]) !! w.tools.outputs(w.command[f])
  {
    forall p | p in w.tools.outputs(w.command[e]) && p in w.tools.outputs(w.command[f])
      ensures false
    {
      assert p in Elems(w.g.edges[e].outputs) && p in Elems(w.g.edges[f].outputs);
      OneProducer(w.g, e, f, p);
    }
  }

  lemma OutputsProducer(w: World, f: EdgeId, p: Path)
    requires Valid(w.g) && Declared(w) && IsEdge(w.g, f) && p in w.tools.outputs(w.command[f])
    ensures ProducerOf(w.g, p) == Some(f)
  {
    assert p in Elems(w.g.edges[f].outputs);
    assert EdgeLinked(w.g, f);
  }

  /** The two states differ at most in the outputs of `f`. */
  ghost predicate OnlyOutputs(t: Tools, x: Command, c: Contents, c': Contents)
  {
    forall p :: p !in t.outputs(x) ==> (p in c <==> p in c') && (p in c ==> c[p] == c'[p])
  }

  /**
   A write by `f`, which is not in the prefix, touches neither what `e` may read nor what it wrote, when the
   planned producers of `e` are in the prefix.
   */
  lemma WriteIsElsewhere(w: World, P: set<EdgeId>, C: set<EdgeId>, D: set<EdgeId>, e: EdgeId, f: EdgeId, c0: Contents)
    requires ValidWorld(w) && Sealed(w.g, P, C) && PrefixOf(w.g, P, D)
    requires e in P && Producers(w.g, e) * P <= D && f in P && f !in D
    ensures w.tools.sees(w.command[e], c0) + Discovered(w.tools, w.command[e], c0) !! w.tools.outputs(w.command[f])
  {
    hide Sealed, PrefixOf, Acyclic, Disciplined, Producers, Ancestor, Discovered;
    assert IsEdge(w.g, e) && IsEdge(w.g, f) by { EdgesOfPlan(w.g, P, C, e); EdgesOfPlan(w.g, P, C, f); }
    forall p | p in w.tools.sees(w.command[e], c0) + Discovered(w.tools, w.command[e], c0) &&
               p in w.tools.outputs(w.command[f])
      ensures false
    {
      OutputsProducer(w, f, p);
      ReadsAreOrdered(w, e, c0, p);
      AncestorsInPrefix(w.g, P, C, D, f, e);
    }
  }

  /** So it changes nothing that `e` may see. */
  lemma WriteIsUnseen(w: World, P: set<EdgeId>, C: set<EdgeId>, D: set<EdgeId>, e: EdgeId, f: EdgeId,
                      c: Contents, d: Contents)
    requires ValidWorld(w) && Sealed(w.g, P, C) && PrefixOf(w.g, P, D)
    requires e in P && Producers(w.g, e) * P <= D && f in P && f !in D && e < |w.command| && f < |w.command|
    requires OnlyOutputs(w.tools, w.command[f], c, d)
    ensures Alike(w.tools, w.command[e], c, d)
  {
    hide ValidWorld, Sealed, PrefixOf, Producers, Discovered;
    forall p | MaySee(w.tools, w.command[e], p)
      ensures p !in w.tools.outputs(w.command[f])
    {
      var b: Contents :| p in w.tools.sees(w.command[e], b);
      WriteIsElsewhere(w, P, C, D, e, f, b);
    }
  }

  lemma EdgesOfPlan(g: Graph, P: set<EdgeId>, C: set<EdgeId>, e: EdgeId)
    requires Sealed(g, P, C) && e in P
    ensures IsEdge(g, e)
  {
    assert e in AllEdges(g);
  }

  // ------------------------------------------------------------------------------------------
  // There is only one consistent outcome
  // ------------------------------------------------------------------------------------------

  ghost predicate AllConsistent(w: World, S: set<EdgeId>, c: Contents)
  {
    forall e :: e in S && e < |w.command| ==> Consistent(w.tools, w.command[e], c)
  }

  /** The states agree wherever no edge of `S` writes. */
  ghost predicate SameElsewhere(w: World, S: set<EdgeId>, c: Contents, c': Contents)
  {
    forall p :: p !in OutputsOf(w, S) ==> (p in c <==> p in c') && (p in c ==> c[p] == c'[p])
  }

  lemma {:induction false} AgreeOnPrefix(w: World, P: set<EdgeId>, C: set<EdgeId>, order: seq<EdgeId>, k: nat,
                                         c: Contents, c': Contents)
    requires ValidWorld(w) && Sealed(w.g, P, C) && Topological(w.g, order) && Elems(order) == P && k <= |order|
    requires AllConsistent(w, P, c) && AllConsistent(w, P, c') && SameElsewhere(w, P, c, c')
    ensures Agree(c, c', OutputsOf(w, Elems(order[..k])))
    decreases k
  {
    hide Sealed, ValidWorld, Topological, SameElsewhere, AllConsistent;
    if k > 0 {
      var e := order[k - 1];
      AgreeOnPrefix(w, P, C, order, k - 1, c, c');
      AgreeOnNext(w, P, C, order, k - 1, c, c');
      assert order[..k] == order[..k - 1] + [e];
      ElemsAppend(order[..k - 1], e);
      OutputsOfOneMore(w, Elems(order[..k - 1]), e);
    }
  }

  lemma PrefixOfOrder(g: Graph, order: seq<EdgeId>, k: nat)
    requires Topological(g, order) && k < |order|
    ensures PrefixOf(g, Elems(order), Elems(order[..k]))
    ensures Producers(g, order[k]) * Elems(order) <= Elems(order[..k])
  {
    hide Producers;
    forall i, f | 0 <= i <= k && f in Producers(g, order[i]) && f in Elems(order)
      ensures f in Elems(order[..i]) && f in Elems(order[..k])
    {
      var j :| 0 <= j < |order| && order[j] == f;
      assert j < i;
      assert order[..i][j] == f && (j < k ==> order[..k][j] == f);
    }
  }

  /** The next edge reads only what already agrees, so its outputs agree too. */
  lemma AgreeOnNext(w: World, P: set<EdgeId>, C: set<EdgeId>, order: seq<EdgeId>, k: nat, c: Contents, c': Contents)
    requires ValidWorld(w) && Sealed(w.g, P, C) && Topological(w.g, order) && Elems(order) == P && k < |order|
    requires AllConsistent(w, P, c) && AllConsistent(w, P, c') && SameElsewhere(w, P, c, c')
    requires Agree(c, c', OutputsOf(w, Elems(order[..k])))
    ensures IsEdge(w.g, order[k]) && Agree(c, c', Elems(w.g.edges[order[k]].outputs))
  {
    var e, t := order[k], w.tools;
    var D := Elems(order[..k]);
    assert e in P;
    PrefixOfOrder(w.g, order, k);
    hide Producers, OutputsOf, Topological;
    EdgesOfPlan(w.g, P, C, e);
    var x := w.command[e];
    forall p | p in t.sees(x, c)
      ensures (p in c <==> p in c') && (p in c ==> c[p] == c'[p])
    {
      if p in OutputsOf(w, P) {
        ReadsOfNext(w, P, C, D, e, c, p);
      }
    }
    assert Agree(c, c', t.sees(x, c));
    assert SameRun(t, x, c, c');
    assert Consistent(t, x, c) && Consistent(t, x, c');
  }

  lemma ReadsOfNext(w: World, P: set<EdgeId>, C: set<EdgeId>, D: set<EdgeId>, e: EdgeId, c: Contents, p: Path)
    requires ValidWorld(w) && Sealed(w.g, P, C) && PrefixOf(w.g, P, D)
    requires e in P && Producers(w.g, e) * P <= D && e < |w.command|
    requires p in w.tools.sees(w.command[e], c) && p in OutputsOf(w, P)
    ensures p in OutputsOf(w, D)
  {
    hide Producers, Sealed, PrefixOf, ValidWorld;
    var f :| f in P && IsEdge(w.g, f) && p in w.g.edges[f].outputs;
    DeclaredOutput(w, f, p);
    if f !in D {
      WriteIsElsewhere(w, P, C, D, e, f, c);
    }
  }

  lemma DeclaredOutput(w: World, f: EdgeId, p: Path)
    requires ValidWorld(w) && IsEdge(w.g, f) && p in w.g.edges[f].outputs
    ensures p in w.tools.outputs(w.command[f])
  {
    assert p in Elems(w.g.edges[f].outputs);
  }

  /** Two states that agree outside the planned outputs and in which all planned edges are consistent are equal. */
  lemma ConsistentStateIsUnique(w: World, P: set<EdgeId>, C: set<EdgeId>, c: Contents, c': Contents)
    requires ValidWorld(w) && Sealed(w.g, P, C)
    requires AllConsistent(w, P, c) && AllConsistent(w, P, c') && SameElsewhere(w, P, c, c')
    ensures c == c'
  {
    AcyclicSubset(w.g, AllEdges(w.g), P);
    var order := AcyclicHasOrder(w.g, P);
    AgreeOnPrefix(w, P, C, order, |order|, c, c');
    assert order[..|order|] == order;
    hide *;
    EqualFromParts(w, P, c, c');
  }

  lemma EqualFromParts(w: World, P: set<EdgeId>, c: Contents, c': Contents)
    requires Agree(c, c', OutputsOf(w, P)) && SameElsewhere(w, P, c, c')
    ensures c == c'
  {
    hide OutputsOf;
    forall p
      ensures (p in c <==> p in c') && (p in c ==> c[p] == c'[p])
    {
      if p in OutputsOf(w, P) {
      }
    }
  }

  // ------------------------------------------------------------------------------------------
  // The serial executor
  // ------------------------------------------------------------------------------------------

  /** One command, as far as file contents go. */
  function RunOne(t: Tools, x: Command, c: Contents): Contents
  {
    c + (map o | o in t.outputs(x) :: t.output(x, o, c))
  }

  /** `Executor::execute` over a list of edges, when every command succeeds. */
  function SerialRun(w: World, order: seq<EdgeId>, c: Contents): Contents
    requires forall i :: 0 <= i < |order| ==> order[i] < |w.command|
  {
    if order == [] then c
    else RunOne(w.tools, w.command[order[|order| - 1]], SerialRun(w, order[..|order| - 1], c))
  }

  lemma RunOneIsConsistent(t: Tools, x: Command, c: Contents)
    requires Deterministic(t) && t.sees(x, c) !! t.outputs(x)
    ensures Consistent(t, x, RunOne(t, x, c)) && OnlyOutputs(t, x, c, RunOne(t, x, c))
  {
    var c' := RunOne(t, x, c);
    assert Agree(c, c', t.sees(x, c));
    assert SameRun(t, x, c, c');
  }

  /** A write by an edge outside the prefix leaves a consistent edge consistent. */
  lemma WriteKeepsConsistent(w: World, P: set<EdgeId>, C: set<EdgeId>, D: set<EdgeId>, e: EdgeId, f: EdgeId,
                             c: Contents, c': Contents)
    requires ValidWorld(w) && Sealed(w.g, P, C) && PrefixOf(w.g, P, D)
    requires e in P && Producers(w.g, e) * P <= D && f in P && f !in D && e != f
    requires e < |w.command| && f < |w.command|
    requires Consistent(w.tools, w.command[e], c) && OnlyOutputs(w.tools, w.command[f], c, c')
    ensures Consistent(w.tools, w.command[e], c')
  {
    hide Sealed, PrefixOf, Producers, Acyclic, Consistent, Ordered;
    WriteIsElsewhere(w, P, C, D, e, f, c);
    EdgesOfPlan(w.g, P, C, e);
    EdgesOfPlan(w.g, P, C, f);
    OutputsApart(w, e, f);
    ConsistentTransfers(w.tools, w.command[e], c, c');
  }

  lemma {:induction false} SerialRunIsConsistent(w: World, C: set<EdgeId>, order: seq<EdgeId>, k: nat, c: Contents)
    requires ValidWorld(w) && Sealed(w.g, Elems(order), C) && Topological(w.g, order) && k <= |order|
    ensures AllConsistent(w, Elems(order[..k]), SerialRun(w, order[..k], c))
    ensures SameElsewhere(w, Elems(order[..k]), c, SerialRun(w, order[..k], c))
    decreases k
  {
    hide Sealed, SameElsewhere, AllConsistent, RunOne, PrefixOf, Producers, Valid, Acyclic, Disciplined, Ordered;
    if k == 0 {
      assert order[..0] == [];
      NothingRan(w, c);
    } else {
      SerialRunIsConsistent(w, C, order, k - 1, c);
      assert order[..k][..k - 1] == order[..k - 1] && order[..k][k - 1] == order[k - 1];
      SerialRunNext(w, C, order, k - 1, c, SerialRun(w, order[..k - 1], c));
      assert order[..k] == order[..k - 1] + [order[k - 1]];
    }
  }

  lemma NothingRan(w: World, c: Contents)
    ensures AllConsistent(w, Elems([]), c) && SameElsewhere(w, Elems([]), c, c)
  {
  }

  lemma SerialRunNext(w: World, C: set<EdgeId>, order: seq<EdgeId>, k: nat, c: Contents, d: Contents)
    requires ValidWorld(w) && Sealed(w.g, Elems(order), C) && Topological(w.g, order) && k < |order|
    requires AllConsistent(w, Elems(order[..k]), d) && SameElsewhere(w, Elems(order[..k]), c, d)
    ensures order[k] < |w.command|
    ensures AllConsistent(w, Elems(order[..k] + [order[k]]), RunOne(w.tools, w.command[order[k]], d))
    ensures SameElsewhere(w, Elems(order[..k] + [order[k]]), c, RunOne(w.tools, w.command[order[k]], d))
  {
    var P, D, f := Elems(order), Elems(order[..k]), order[k];
    var x, d' := w.command[f], RunOne(w.tools, w.command[f], d);
    assert f in P;
    PrefixOfOrder(w.g, order, k);
    NotBefore(order, k);
    ElemsAppend(order[..k], f);
    EdgesOfPlan(w.g, P, C, f);
    WriteIsElsewhere(w, P, C, D, f, f, d);
    RunOneIsConsistent(w.tools, x, d);
    hide RunOne, Topological, Sealed, Producers, ValidWorld;
    forall e | e in D && e < |w.command|
      ensures Consistent(w.tools, w.command[e], d')
    {
      PrefixMember(w.g, P, D, e);
      WriteKeepsConsistent(w, P, C, D, e, f, d, d');
    }
    OutputsOfOneMore(w, D, f);
    RunTouchesOnly(w, f, d, d');
  }

  lemma NotBefore(order: seq<EdgeId>, k: nat)
    requires NoDup(order) && k < |order|
    ensures order[k] !in Elems(order[..k])
  {
  }

  lemma PrefixMember(g: Graph, P: set<EdgeId>, D: set<EdgeId>, e: EdgeId)
    requires PrefixOf(g, P, D) && e in D
    ensures e in P && Producers(g, e) * P <= D
  {
  }

  lemma RunTouchesOnly(w: World, f: EdgeId, d: Contents, d': Contents)
    requires ValidWorld(w) && IsEdge(w.g, f) && OnlyOutputs(w.tools, w.command[f], d, d')
    ensures forall p :: p !in w.g.edges[f].outputs ==> (p in d <==> p in d') && (p in d ==> d[p] == d'[p])
  {
    hide Valid, Acyclic, Disciplined, Ordered;
    forall p | p !in w.g.edges[f].outputs
      ensures p !in w.tools.outputs(w.command[f])
    {
      assert p !in Elems(w.g.edges[f].outputs);
    }
  }

  /**
   Any state in which all planned edges are consistent, and which differs from `c` only in planned outputs, is
   the one that the serial executor reaches from `c`, in whatever topological order it works.
   */
  lemma SerialRunIsTheOutcome(w: World, P: set<EdgeId>, C: set<EdgeId>, order: seq<EdgeId>, c: Contents, c': Contents)
    requires ValidWorld(w) && Sealed(w.g, P, C) && Topological(w.g, order) && Elems(order) == P
    requires AllConsistent(w, P, c') && SameElsewhere(w, P, c, c')
    ensures forall i :: 0 <= i < |order| ==> order[i] < |w.command|
    ensures c' == SerialRun(w, order, c)
  {
    hide Sealed, AllConsistent, OutputsOf;
    SerialRunIsConsistent(w, C, order, |order|, c);
    assert order[..|order|] == order;
    ConsistentStateIsUnique(w, P, C, c', SerialRun(w, order, c));
  }
}
