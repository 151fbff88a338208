/**
 `Builder`: why an edge is directly stale, which edges a target needs, how dirtiness spreads downstream, and the
 plan that comes out. The worklists keep the source's stack, queue and sets; their contracts speak of least
 closed sets.
 */
module Builder {
  import opened Prelude
  import opened Graphs
  import opened Planner
  import opened World

  /** What `--explain` reports about an edge. */
  datatype Reason =
    | OutputMissing(output: Path)
    | InputMissing(input: Path)
    | InputNewer(input: Path, output: Path)
    | CommandChanged(output: Path)
    | DynamicMissing(dependency: Path, output: Path)
    | DynamicNewer(dependency: Path, output: Path)
    | UpstreamDirty(path: Path)

  datatype BuildError = UnknownTarget(target: string) | NotProduced(target: string) | Cyclic

  /** What one planning run looks at; a builder may have been given no logs. */
  datatype View = View(files: Files, log: Option<map<Path, nat>>, deps: Option<map<Path, seq<Path>>>)

  /** `FileSystem::timestamp`: zero for a file that does not exist. */
  function Stamp(files: Files, p: Path): int
  {
    if p in files then files[p].mtime else 0
  }

  ghost predicate FileReason(g: Graph, v: View, e: EdgeId, r: Reason)
  {
    IsEdge(g, e) &&
    match r
    case OutputMissing(o) => o in g.edges[e].outputs && o !in v.files
    case InputMissing(i) => i in g.edges[e].inputs && i !in v.files
    case InputNewer(i, o) =>
      && i in g.edges[e].inputs && o in g.edges[e].outputs
      && i in v.files && o in v.files && v.files[o].mtime < v.files[i].mtime
    case _ => false
  }

  ghost predicate CommandReason(w: World, v: View, e: EdgeId, r: Reason)
  {
    && r.CommandChanged? && v.log.Some?
    && IsEdge(w.g, e) && r.output in w.g.edges[e].outputs && e < |w.command|
    && !(r.output in v.log.value && v.log.value[r.output] == w.tools.hash(w.command[e]))
  }

  /** `p` is on the record of output `o` and is not an input of `e` that the manifest names. */
  ghost predicate Recalls(g: Graph, v: View, e: EdgeId, p: Path, o: Path)
  {
    && v.deps.Some? && IsEdge(g, e)
    && o in g.edges[e].outputs && o in v.deps.value
    && p in v.deps.value[o] && p !in g.edges[e].inputs
  }

  ghost predicate DynamicReason(g: Graph, v: View, e: EdgeId, r: Reason)
  {
    match r
    case DynamicMissing(p, o) => Recalls(g, v, e, p, o) && p !in v.files
    case DynamicNewer(p, o) => Recalls(g, v, e, p, o) && p in v.files && Stamp(v.files, o) < v.files[p].mtime
    case _ => false
  }

  ghost predicate Direct(w: World, v: View, e: EdgeId, r: Reason)
  {
    FileReason(w.g, v, e, r) || CommandReason(w, v, e, r) || DynamicReason(w.g, v, e, r)
  }

  /** Something on disk or in the logs makes `e` stale, whatever its producers do. */
  ghost predicate Stale(w: World, v: View, e: EdgeId)
  {
    exists r :: Direct(w, v, e, r)
  }

  // ------------------------------------------------------------------------------------------
  // Least closed sets
  // ------------------------------------------------------------------------------------------

  /** `C` is the least producer-closed set that contains `seeds`. */
  ghost predicate Upstream(g: Graph, seeds: set<EdgeId>, C: set<EdgeId>)
  {
    && seeds <= C && ProducerClosed(g, C)
    && forall S: set<EdgeId> :: seeds <= S && ProducerClosed(g, S) ==> C <= S
  }

  /** `D` is the least set of allowed edges that contains `seeds` and, with an edge, its allowed consumers. */
  ghost predicate Downstream(g: Graph, allowed: set<EdgeId>, seeds: set<EdgeId>, D: set<EdgeId>)
  {
    && seeds <= D <= allowed && ConsumerClosed(g, allowed, D)
    && forall S: set<EdgeId> :: seeds <= S && ConsumerClosed(g, allowed, S) ==> D <= S
  }

  /** The producers of the targets. */
  ghost function Seeds(g: Graph, targets: seq<string>): set<EdgeId>
  {
    set t | t in targets && ProducerOf(g, t).Some? :: ProducerOf(g, t).value
  }

  /** The scope of a build: everything, or what lies upstream of the targets. */
  ghost predicate InScope(g: Graph, targets: seq<string>, C: set<EdgeId>)
  {
    if targets == [] then C == AllEdges(g) else Upstream(g, Seeds(g, targets), C)
  }

  ghost function StaleIn(w: World, v: View, allowed: set<EdgeId>): set<EdgeId>
  {
    set e | e in allowed && Stale(w, v, e)
  }

  /** The edges to run are the dirty ones among the allowed ones. */
  ghost predicate DirtySet(w: World, v: View, allowed: set<EdgeId>, P: set<EdgeId>)
  {
    Downstream(w.g, allowed, StaleIn(w, v, allowed), P)
  }

  // ------------------------------------------------------------------------------------------
  // The same sets, edge by edge
  // ------------------------------------------------------------------------------------------

  /** The closure holds the seeds, what lies upstream of them, and nothing else. */
  lemma UpstreamIffChain(g: Graph, seeds: set<EdgeId>, C: set<EdgeId>, e: EdgeId)
    requires Valid(g) && seeds <= AllEdges(g) && Upstream(g, seeds, C)
    ensures e in C <==> exists c :: Chain(g, c) && c[0] == e && c[|c| - 1] in seeds
  {
    hide Valid, Producers, AllEdges;
    if e in C {
      var S := set h | h in AllEdges(g) && exists c :: Chain(g, c) && c[0] == h && c[|c| - 1] in seeds;
      forall h | h in seeds
        ensures h in S
      {
        assert Chain(g, [h]);
      }
      forall h, p | h in S && p in Producers(g, h)
        ensures p in S
      {
        var c :| Chain(g, c) && c[0] == h && c[|c| - 1] in seeds;
        EdgeInAll(g, h);
        ProducersAreEdges(g, h);
        ChainBefore(g, p, c);
      }
      assert ProducerClosed(g, S) && C <= S;
    }
    if c :| Chain(g, c) && c[0] == e && c[|c| - 1] in seeds {
      ChainInClosed(g, C, c, 0);
    }
  }

  /** ... so an edge is in the scope of a build exactly when a target is its output or needs it. */
  lemma ScopeIsWhatTargetsNeed(g: Graph, targets: seq<string>, C: set<EdgeId>, e: EdgeId)
    requires Valid(g) && InScope(g, targets, C)
    ensures targets == [] ==> (e in C <==> IsEdge(g, e))
    ensures targets != [] ==>
      (e in C <==> exists t ::
         t in targets && ProducerOf(g, t).Some? &&
         (ProducerOf(g, t).value == e || Ancestor(g, e, ProducerOf(g, t).value)))
  {
    EdgeInAll(g, e);
    if targets != [] {
      SeedsAreEdges(g, targets);
      UpstreamIffChain(g, Seeds(g, targets), C, e);
      hide Valid, Producers, AllEdges, Upstream, Chain, Ancestor, ProducerOf;
      forall s: EdgeId | s in Seeds(g, targets)
        ensures (exists c :: Chain(g, c) && c[0] == e && c[|c| - 1] == s) <==> s == e || Ancestor(g, e, s)
      {
        EdgeInAll(g, s);
        ShortOrLongChain(g, e, s);
      }
    }
  }

  lemma ShortOrLongChain(g: Graph, f: EdgeId, e: EdgeId)
    requires Valid(g) && IsEdge(g, e)
    ensures (exists c :: Chain(g, c) && c[0] == f && c[|c| - 1] == e) <==> e == f || Ancestor(g, f, e)
  {
    AncestorIffChain(g, f, e);
    hide Valid, Producers, Ancestor;
    assert Chain(g, [e]);
  }

  lemma ClosureIsWhatTargetsNeed(g: Graph, targets: seq<string>, C: set<EdgeId>)
    requires Valid(g) && Upstream(g, Seeds(g, targets), C)
    ensures forall e ::
      e in C <==> exists t ::
        t in targets && ProducerOf(g, t).Some? &&
        (ProducerOf(g, t).value == e || Ancestor(g, e, ProducerOf(g, t).value))
  {
    if targets == [] {
      NothingNeedsNothing(g, C);
    }
    hide Upstream, Seeds, Ancestor;
    forall e | targets != []
      ensures e in C <==> exists t ::
        t in targets && ProducerOf(g, t).Some? &&
        (ProducerOf(g, t).value == e || Ancestor(g, e, ProducerOf(g, t).value))
    {
      ScopeIsWhatTargetsNeed(g, targets, C, e);
    }
  }

  lemma NothingNeedsNothing(g: Graph, C: set<EdgeId>)
    requires Upstream(g, Seeds(g, []), C)
    ensures C == {}
  {
    assert Seeds(g, []) <= {} && ProducerClosed(g, {});
  }

  lemma SeedsAreEdges(g: Graph, targets: seq<string>)
    requires Valid(g)
    ensures Seeds(g, targets) <= AllEdges(g)
  {
    forall e | e in Seeds(g, targets)
      ensures e in AllEdges(g)
    {
      var t :| t in targets && ProducerOf(g, t) == Some(e);
      assert NodeLinked(g, t);
    }
  }

  /** An edge is to run exactly when a chain of allowed edges leads to it from one that is stale by itself. */
  lemma DirtyIffChain(w: World, v: View, allowed: set<EdgeId>, P: set<EdgeId>, e: EdgeId)
    requires Valid(w.g) && allowed <= AllEdges(w.g) && DirtySet(w, v, allowed, P)
    ensures e in P <==> exists c :: Chain(w.g, c) && Elems(c) <= allowed && Stale(w, v, c[0]) && c[|c| - 1] == e
  {
    hide Valid, Producers, Dependents, AllEdges, Stale;
    if e in P {
      var S := set h | h in allowed &&
          exists c :: Chain(w.g, c) && Elems(c) <= allowed && Stale(w, v, c[0]) && c[|c| - 1] == h;
      forall h | h in StaleIn(w, v, allowed)
        ensures h in S
      {
        assert Chain(w.g, [h]) && Elems([h]) <= allowed;
      }
      forall h, f | h in S && f in Dependents(w.g, h) && f in allowed
        ensures f in S
      {
        var c :| Chain(w.g, c) && Elems(c) <= allowed && Stale(w, v, c[0]) && c[|c| - 1] == h;
        ConsumerNeeds(w.g, allowed, h, f);
        ChainAfter(w.g, c, f);
        ElemsAppend(c, f);
      }
      assert ConsumerClosed(w.g, allowed, S) && P <= S;
    }
    if c: seq<EdgeId> :| Chain(w.g, c) && Elems(c) <= allowed && Stale(w, v, c[0]) && c[|c| - 1] == e {
      assert c[0] in Elems(c);
      ChainStaysDirty(w.g, allowed, P, c, |c| - 1);
    }
  }

  lemma ConsumerNeeds(g: Graph, allowed: set<EdgeId>, e: EdgeId, f: EdgeId)
    requires Valid(g) && allowed <= AllEdges(g) && e in allowed && f in allowed
    ensures f in Dependents(g, e) <==> e in Producers(g, f)
  {
    EdgeInAll(g, e);
    EdgeInAll(g, f);
    DependencyViews(g, f, e);
  }

  lemma {:induction false} ChainStaysDirty(g: Graph, allowed: set<EdgeId>, P: set<EdgeId>, c: seq<EdgeId>, k: nat)
    requires Valid(g) && allowed <= AllEdges(g) && ConsumerClosed(g, allowed, P) && P <= allowed
    requires Chain(g, c) && Elems(c) <= allowed && c[0] in P && k < |c|
    ensures c[k] in P
  {
    hide Valid, Producers, Dependents, AllEdges;
    if k > 0 {
      ChainStaysDirty(g, allowed, P, c, k - 1);
      assert c[k - 1] in Producers(g, c[k - 1 + 1]) && c[k] in Elems(c);
      ConsumerNeeds(g, allowed, c[k - 1], c[k]);
    }
  }

  /**
   Restricting a build to targets commutes with dirtiness: every dirty path into an upstream-closed set stays
   inside it, so nothing is missed and nothing is added.
   */
  lemma TargetsCommuteWithDirtiness(w: World, v: View, C: set<EdgeId>, P: set<EdgeId>, full: set<EdgeId>)
    requires Valid(w.g) && C <= AllEdges(w.g) && ProducerClosed(w.g, C)
    requires DirtySet(w, v, C, P) && DirtySet(w, v, AllEdges(w.g), full)
    ensures P == full * C
  {
    hide Producers, Dependents, Valid, Stale;
    assert ConsumerClosed(w.g, C, full * C);
    assert P <= full * C;
    var S := P + (AllEdges(w.g) - C);
    forall e, f | e in S && f in Dependents(w.g, e) && f in AllEdges(w.g)
      ensures f in S
    {
      if f in C {
        ComesFromInside(w.g, C, e, f);
      }
    }
    assert ConsumerClosed(w.g, AllEdges(w.g), S);
    assert full <= S;
  }

  lemma ComesFromInside(g: Graph, C: set<EdgeId>, e: EdgeId, f: EdgeId)
    requires Valid(g) && C <= AllEdges(g) && ProducerClosed(g, C)
    requires f in C && f in Dependents(g, e)
    ensures e in C
  {
    assert IsEdge(g, f);
    assert IsEdge(g, e);
    DependencyViews(g, f, e);
  }

  lemma AllEdgesAreClosed(g: Graph)
    requires Valid(g)
    ensures ProducerClosed(g, AllEdges(g))
  {
    hide Producers, Valid;
    forall e | e in AllEdges(g)
      ensures Producers(g, e) <= AllEdges(g)
    {
      ProducersAreEdges(g, e);
    }
  }

  // ------------------------------------------------------------------------------------------
  // The pairs (path, consumer) that have been told that the path is dirty
  // ------------------------------------------------------------------------------------------

  function Pairs(p: Path, consumers: set<EdgeId>): set<(Path, EdgeId)>
  {
    set f | f in consumers :: (p, f)
  }

  /** The reasons kept for `f`: the direct ones, and one for each dirty path it was told about. */
  ghost predicate Listed(w: World, v: View, told: set<(Path, EdgeId)>, f: EdgeId, reasons: seq<Reason>)
  {
    forall r :: r in reasons <==> Direct(w, v, f, r) || (r.UpstreamDirty? && (r.path, f) in told)
  }

  ghost predicate Explained(w: World, v: View, told: set<(Path, EdgeId)>, reasons: map<EdgeId, seq<Reason>>)
  {
    && (forall f :: f in reasons ==> reasons[f] != [] && Listed(w, v, told, f, reasons[f]))
    && (forall p, f :: (p, f) in told ==> f in reasons)
  }

  class Builder {
    const w: World
    const v: View
    var reasons: map<EdgeId, seq<Reason>>

    constructor (w: World, v: View)
      ensures this.w == w && this.v == v && reasons == map[]
    {
      this.w, this.v := w, v;
      reasons := map[];
    }

    method AppendFileStateReasons(e: EdgeId, before: seq<Reason>) returns (after: seq<Reason>)
      requires IsEdge(w.g, e)
      ensures forall r :: r in after <==> r in before || FileReason(w.g, v, e, r)
    {
      var inputs, outputs := w.g.edges[e].inputs, w.g.edges[e].outputs;
      after := before;
      for k := 0 to |outputs|
        invariant forall r :: r in after <==>
            r in before || (r.OutputMissing? && r.output in outputs[..k] && r.output !in v.files)
      {
        if outputs[k] !in v.files {
          after := after + [OutputMissing(outputs[k])];
        }
      }
      ghost var missing := after;
      for k := 0 to |inputs|
        invariant forall r :: r in after <==> r in missing || (InputReason(r, outputs) && r.input in inputs[..k])
      {
        assert inputs[..k + 1] == inputs[..k] + [inputs[k]];
        after := CompareInput(inputs[k], outputs, after);
      }
    }

    ghost predicate InputReason(r: Reason, outputs: seq<Path>)
    {
      || (r.InputMissing? && r.input !in v.files)
      || (r.InputNewer? && r.output in outputs && r.input in v.files && r.output in v.files &&
          v.files[r.output].mtime < v.files[r.input].mtime)
    }

    method CompareInput(input: Path, outputs: seq<Path>, before: seq<Reason>) returns (after: seq<Reason>)
      ensures forall r :: r in after <==> r in before || (InputReason(r, outputs) && r.input == input)
    {
      after := before;
      if input !in v.files {
        return before + [InputMissing(input)];
      }
      for k := 0 to |outputs|
        invariant forall r :: r in after <==> r in before || (InputReason(r, outputs[..k]) && r.input == input)
      {
        assert outputs[..k + 1] == outputs[..k] + [outputs[k]];
        if outputs[k] !in v.files {
          continue;
        }
        if v.files[input].mtime > v.files[outputs[k]].mtime {
          after := after + [InputNewer(input, outputs[k])];
        }
      }
      assert outputs[..|outputs|] == outputs;
    }

    method AppendCommandChangeReasons(e: EdgeId, before: seq<Reason>) returns (after: seq<Reason>)
      requires IsEdge(w.g, e) && e < |w.command|
      ensures forall r :: r in after <==> r in before || CommandReason(w, v, e, r)
    {
      after := before;
      if v.log.None? {
        return;
      }
      var log, outputs, currentHash := v.log.value, w.g.edges[e].outputs, w.tools.hash(w.command[e]);
      for k := 0 to |outputs|
        invariant forall r :: r in after <==>
          r in before ||
          (r.CommandChanged? && r.output in outputs[..k] && !(r.output in log && log[r.output] == currentHash))
      {
        if !(outputs[k] in log && log[outputs[k]] == currentHash) {
          after := after + [CommandChanged(outputs[k])];
        }
      }
    }

    method AppendDynamicDependencyReasons(e: EdgeId, before: seq<Reason>) returns (after: seq<Reason>)
      requires IsEdge(w.g, e)
      ensures forall r :: r in after <==> r in before || DynamicReason(w.g, v, e, r)
    {
      after := before;
      if v.deps.None? {
        return;
      }
      var outputs := w.g.edges[e].outputs;
      for k := 0 to |outputs|
        invariant forall r :: r in after <==> r in before || (DynamicReason(w.g, v, e, r) && r.output in outputs[..k])
      {
        assert outputs[..k + 1] == outputs[..k] + [outputs[k]];
        if outputs[k] !in v.deps.value {
          continue;
        }
        after := CompareRecord(e, outputs[k], after);
      }
    }

    method CompareRecord(e: EdgeId, output: Path, before: seq<Reason>) returns (after: seq<Reason>)
      requires IsEdge(w.g, e) && v.deps.Some? && output in w.g.edges[e].outputs && output in v.deps.value
      ensures forall r :: r in after <==> r in before || (DynamicReason(w.g, v, e, r) && r.output == output)
    {
      after := before;
      var dependencies := v.deps.value[output];
      for k := 0 to |dependencies|
        invariant forall r :: r in after <==>
          r in before || (DynamicReason(w.g, v, e, r) && r.output == output && r.dependency in dependencies[..k])
      {
        assert dependencies[..k + 1] == dependencies[..k] + [dependencies[k]];
        var dependency := dependencies[k];
        if dependency in w.g.edges[e].inputs {
          continue;
        }
        if dependency !in v.files {
          after := after + [DynamicMissing(dependency, output)];
          continue;
        }
        if v.files[dependency].mtime > Stamp(v.files, output) {
          after := after + [DynamicNewer(dependency, output)];
        }
      }
    }

    /** The direct reasons of one edge, in the order of the three checks. */
    method DirectReasons(e: EdgeId) returns (found: seq<Reason>)
      requires IsEdge(w.g, e) && e < |w.command|
      ensures forall r :: r in found <==> Direct(w, v, e, r)
      ensures found != [] <==> Stale(w, v, e)
    {
      hide FileReason, CommandReason, DynamicReason;
      found := AppendFileStateReasons(e, []);
      found := AppendCommandChangeReasons(e, found);
      found := AppendDynamicDependencyReasons(e, found);
      if found != [] {
        assert found[0] in found;
      }
    }

    // ----------------------------------------------------------------------------------------
    // What a target needs
    // ----------------------------------------------------------------------------------------

    /** The producers of the targets, or what is wrong with the first target that has none. */
    method FindProducers(targets: seq<string>) returns (r: Result<seq<EdgeId>, BuildError>)
      ensures r.Ok? <==> forall t :: t in targets ==> ProducerOf(w.g, t).Some?
      ensures r.Ok? ==> forall e :: e in r.value <==> exists t :: t in targets && ProducerOf(w.g, t) == Some(e)
      ensures r.Err? ==>
        exists k :: 0 <= k < |targets| && ProducerOf(w.g, targets[k]).None? &&
                    (forall j :: 0 <= j < k ==> ProducerOf(w.g, targets[j]).Some?) &&
                    r.error == if targets[k] in w.g.nodes then NotProduced(targets[k]) else UnknownTarget(targets[k])
    {
      var pending: seq<EdgeId> := [];
      for k := 0 to |targets|
        invariant forall j :: 0 <= j < k ==> ProducerOf(w.g, targets[j]).Some?
        invariant Elems(pending) == Seeds(w.g, targets[..k])
      {
        if targets[k] !in w.g.nodes {
          assert ProducerOf(w.g, targets[k]).None?;
          return Err(UnknownTarget(targets[k]));
        }
        var producer := w.g.nodes[targets[k]].inEdge;
        if producer.None? {
          assert ProducerOf(w.g, targets[k]).None?;
          return Err(NotProduced(targets[k]));
        }
        SeedsOneMore(targets, k);
        ElemsAppend(pending, producer.value);
        pending := pending + [producer.value];
      }
      assert targets[..|targets|] == targets;
      assert forall e :: e in pending <==> e in Elems(pending);
      return Ok(pending);
    }

    lemma SeedsOneMore(targets: seq<string>, k: nat)
      requires k < |targets| && ProducerOf(w.g, targets[k]).Some?
      ensures Seeds(w.g, targets[..k + 1]) == Seeds(w.g, targets[..k]) + {ProducerOf(w.g, targets[k]).value}
    {
      assert targets[..k + 1] == targets[..k] + [targets[k]];
    }

    /** The edges upstream of the targets, or the first target that names no output. */
    method CollectTargetClosure(targets: seq<string>) returns (r: Result<set<EdgeId>, BuildError>)
      requires Valid(w.g)
      ensures r.Ok? <==> forall t :: t in targets ==> ProducerOf(w.g, t).Some?
      ensures r.Ok? ==> Upstream(w.g, Seeds(w.g, targets), r.value) && r.value <= AllEdges(w.g)
      ensures r.Ok? ==> forall e ::
        e in r.value <==> exists t ::
          t in targets && ProducerOf(w.g, t).Some? &&
          (ProducerOf(w.g, t).value == e || Ancestor(w.g, e, ProducerOf(w.g, t).value))
      ensures r.Err? ==>
        exists k :: 0 <= k < |targets| && ProducerOf(w.g, targets[k]).None? &&
                    (forall j :: 0 <= j < k ==> ProducerOf(w.g, targets[j]).Some?) &&
                    r.error == if targets[k] in w.g.nodes then NotProduced(targets[k]) else UnknownTarget(targets[k])
    {
      var found := FindProducers(targets);
      if found.Err? {
        return Err(found.error);
      }
      hide Valid, AllEdges, ProducerClosed, Producers;
      SeedsAreEdges(w.g, targets);
      assert Elems(found.value) == Seeds(w.g, targets);
      var closure := Close(found.value);
      ClosureIsWhatTargetsNeed(w.g, targets, closure);
      return Ok(closure);
    }

    /** The stack loop: every edge is expanded once, so it ends on cyclic graphs too. */
    method Close(seeds: seq<EdgeId>) returns (closure: set<EdgeId>)
      requires Valid(w.g) && Elems(seeds) <= AllEdges(w.g)
      ensures Upstream(w.g, Elems(seeds), closure) && closure <= AllEdges(w.g)
    {
      hide Valid, Producers, ProducerClosed, AllEdges;
      closure := {};
      var pending := seeds;
      while pending != []
        invariant Climbing(Elems(seeds), closure, Elems(pending))
        decreases AllEdges(w.g) - closure, |pending|
      {
        var edge := pending[|pending| - 1];
        assert pending == pending[..|pending| - 1] + [edge];
        ElemsAppend(pending[..|pending| - 1], edge);
        pending := pending[..|pending| - 1];
        if edge in closure {
          continue;
        }
        EdgeFromSet(edge);
        var more := ProducersOnStack(edge, pending);
        ClimbOn(Elems(seeds), closure, Elems(pending), edge);
        pending := more;
        closure := closure + {edge};
      }
      Arrived(Elems(seeds), closure);
    }

    /** Everything found belongs to every closed superset of the seeds, and what is missing is on the stack. */
    ghost predicate Climbing(seeds: set<EdgeId>, closure: set<EdgeId>, pending: set<EdgeId>)
    {
      && seeds <= closure + pending <= AllEdges(w.g)
      && (forall e :: e in closure ==> Producers(w.g, e) <= closure + pending)
      && (forall S: set<EdgeId> :: seeds <= S && ProducerClosed(w.g, S) ==> closure + pending <= S)
    }

    lemma EdgeFromSet(e: EdgeId)
      requires e in AllEdges(w.g)
      ensures IsEdge(w.g, e)
    {
    }

    lemma ClimbOn(seeds: set<EdgeId>, closure: set<EdgeId>, pending: set<EdgeId>, e: EdgeId)
      requires Valid(w.g) && IsEdge(w.g, e) && Climbing(seeds, closure, pending + {e})
      ensures Climbing(seeds, closure + {e}, pending + Producers(w.g, e))
    {
      hide Valid, Producers, AllEdges;
      ProducersAreEdges(w.g, e);
      var before, after := closure + (pending + {e}), (closure + {e}) + (pending + Producers(w.g, e));
      assert after == before + Producers(w.g, e);
      forall S: set<EdgeId> | seeds <= S && ProducerClosed(w.g, S)
        ensures after <= S
      {
        assert before <= S && e in S;
      }
    }

    lemma Arrived(seeds: set<EdgeId>, closure: set<EdgeId>)
      requires Climbing(seeds, closure, {})
      ensures Upstream(w.g, seeds, closure) && closure <= AllEdges(w.g)
    {
      hide Producers, AllEdges;
      assert closure + {} == closure;
    }

    method ProducersOnStack(e: EdgeId, stack: seq<EdgeId>) returns (pending: seq<EdgeId>)
      requires Valid(w.g) && IsEdge(w.g, e)
      ensures Elems(pending) == Elems(stack) + Producers(w.g, e)
    {
      hide ProducersOf;
      var inputs := w.g.edges[e].inputs;
      pending := stack;
      NoPathsNoProducers(w.g);
      assert Elems(inputs[..0]) == {};
      for k := 0 to |inputs|
        invariant Elems(pending) == Elems(stack) + ProducersOf(w.g, Elems(inputs[..k]))
      {
        assert EdgeLinked(w.g, e);
        assert inputs[..k + 1] == inputs[..k] + [inputs[k]];
        ElemsAppend(inputs[..k], inputs[k]);
        ProducersOfOneMore(w.g, Elems(inputs[..k]), inputs[k]);
        var producer := w.g.nodes[inputs[k]].inEdge;
        if producer.Some? {
          ElemsAppend(pending, producer.value);
          pending := pending + [producer.value];
        }
      }
      assert inputs[..|inputs|] == inputs;
    }

    // ----------------------------------------------------------------------------------------
    // How dirtiness spreads
    // ----------------------------------------------------------------------------------------

    /** `allowed_edges`; a null pointer allows everything. */
    ghost function Scope(allowed: Option<set<EdgeId>>): set<EdgeId>
    {
      if allowed.None? then AllEdges(w.g) else allowed.value
    }

    /** First phase: the stale edges in creation order, with their reasons. */
    method FindStale(allowed: Option<set<EdgeId>>) returns (queue: seq<EdgeId>)
      requires |w.command| == |w.g.edges| && Scope(allowed) <= AllEdges(w.g)
      modifies this
      ensures Lists(queue, StaleIn(w, v, Scope(allowed)))
      ensures reasons.Keys == Elems(queue) && Explained(w, v, {}, reasons)
    {
      hide Direct;
      reasons := map[];
      queue := [];
      for e := 0 to |w.g.edges|
        invariant Lists(queue, set f | f in StaleIn(w, v, Scope(allowed)) && f < e)
        invariant reasons.Keys == Elems(queue) && Explained(w, v, {}, reasons)
      {
        ghost var before := set f | f in StaleIn(w, v, Scope(allowed)) && f < e;
        assert IsEdge(w.g, e);
        if allowed.Some? && e !in allowed.value {
          assert (set f | f in StaleIn(w, v, Scope(allowed)) && f < e + 1) == before;
          continue;
        }
        var found := DirectReasons(e);
        if found == [] {
          assert (set f | f in StaleIn(w, v, Scope(allowed)) && f < e + 1) == before;
          continue;
        }
        assert (set f | f in StaleIn(w, v, Scope(allowed)) && f < e + 1) == before + {e};
        ListsAppend(queue, before, e);
        ElemsAppend(queue, e);
        reasons := reasons[e := found];
        queue := queue + [e];
      }
      assert (set f | f in StaleIn(w, v, Scope(allowed)) && f < |w.g.edges|) == StaleIn(w, v, Scope(allowed));
    }

    /** What the queue loop keeps all the time; `order` is the result so far followed by the queue. */
    ghost predicate Spreading(told: set<(Path, EdgeId)>, order: seq<EdgeId>, queued: set<EdgeId>, scope: set<EdgeId>)
      reads this
    {
      && Lists(order, queued)
      && reasons.Keys == queued && Explained(w, v, told, reasons)
      && StaleIn(w, v, scope) <= queued
    }

    /** One consumer of one dirty path: it gets a reason, and joins the queue if it was not there yet. */
    method TellConsumer(p: Path, f: EdgeId, queue: seq<EdgeId>, queued: set<EdgeId>, ghost result: seq<EdgeId>,
                        ghost told: set<(Path, EdgeId)>, ghost scope: set<EdgeId>)
      returns (queue': seq<EdgeId>, queued': set<EdgeId>)
      requires Spreading(told, result + queue, queued, scope) && f in scope
      modifies this
      ensures Spreading(told + {(p, f)}, result + queue', queued', scope)
      ensures queued' == queued + {f}
    {
      hide Direct, Lists;
      var list := if f in reasons then reasons[f] else [];
      ExplainOne(told, p, f, list);
      reasons := reasons[f := list + [UpstreamDirty(p)]];
      queue', queued' := queue, queued + {f};
      if f !in queued {
        ListsAppend(result + queue, queued, f);
        assert result + (queue + [f]) == (result + queue) + [f];
        queue' := queue + [f];
      } else {
        assert queued' == queued;
      }
    }

    lemma ExplainOne(told: set<(Path, EdgeId)>, p: Path, f: EdgeId, list: seq<Reason>)
      requires Explained(w, v, told, reasons)
      requires f in reasons ==> list == reasons[f]
      requires f !in reasons ==> list == [] && !Stale(w, v, f)
      ensures Explained(w, v, told + {(p, f)}, reasons[f := list + [UpstreamDirty(p)]])
    {
      hide Direct;
      var longer := list + [UpstreamDirty(p)];
      forall r
        ensures r in longer <==> Direct(w, v, f, r) || (r.UpstreamDirty? && (r.path, f) in told + {(p, f)})
      {
        if f !in reasons {
          assert !Direct(w, v, f, r);
        }
      }
    }

    /** All consumers of one dirty output, except those outside the scope. */
    method TellConsumers(p: Path, allowed: Option<set<EdgeId>>, queue: seq<EdgeId>, queued: set<EdgeId>,
                         ghost result: seq<EdgeId>, ghost told: set<(Path, EdgeId)>)
      returns (queue': seq<EdgeId>, queued': set<EdgeId>)
      requires Valid(w.g) && p in w.g.nodes && Spreading(told, result + queue, queued, Scope(allowed))
      modifies this
      ensures Spreading(told + Pairs(p, Elems(w.g.nodes[p].outEdges) * Scope(allowed)),
                        result + queue', queued', Scope(allowed))
      ensures queued' == queued + Elems(w.g.nodes[p].outEdges) * Scope(allowed)
    {
      hide Spreading, Valid;
      var consumers := w.g.nodes[p].outEdges;
      queue', queued' := queue, queued;
      assert told + Pairs(p, Elems(consumers[..0]) * Scope(allowed)) == told;
      for k := 0 to |consumers|
        invariant Spreading(told + Pairs(p, Elems(consumers[..k]) * Scope(allowed)),
                            result + queue', queued', Scope(allowed))
        invariant queued' == queued + Elems(consumers[..k]) * Scope(allowed)
      {
        var f := consumers[k];
        ConsumerIsEdge(p, k);
        assert consumers[..k + 1] == consumers[..k] + [f];
        ElemsAppend(consumers[..k], f);
        ghost var some := Elems(consumers[..k]) * Scope(allowed);
        if allowed.Some? && f !in allowed.value {
          assert Elems(consumers[..k + 1]) * Scope(allowed) == some;
          continue;
        }
        assert f in Scope(allowed);
        assert Elems(consumers[..k + 1]) * Scope(allowed) == some + {f};
        PairsOneMore(told, p, some, f);
        queue', queued' := TellConsumer(p, f, queue', queued', result, told + Pairs(p, some), Scope(allowed));
      }
      assert consumers[..|consumers|] == consumers;
    }

    lemma ConsumerIsEdge(p: Path, k: nat)
      requires Valid(w.g) && p in w.g.nodes && k < |w.g.nodes[p].outEdges|
      ensures w.g.nodes[p].outEdges[k] in AllEdges(w.g)
    {
      assert NodeLinked(w.g, p);
      assert w.g.nodes[p].outEdges[k] in w.g.nodes[p].outEdges;
      assert IsEdge(w.g, w.g.nodes[p].outEdges[k]);
    }

    lemma PairsOneMore(told: set<(Path, EdgeId)>, p: Path, some: set<EdgeId>, f: EdgeId)
      ensures told + Pairs(p, some) + {(p, f)} == told + Pairs(p, some + {f})
    {
    }

    /** The pairs that an edge with these dirty outputs accounts for. */
    ghost function Tidings(paths: set<Path>, scope: set<EdgeId>): set<(Path, EdgeId)>
    {
      set p, f | p in paths && p in w.g.nodes && f in w.g.nodes[p].outEdges && f in scope :: (p, f)
    }

    lemma TidingsOneMore(paths: set<Path>, p: Path, scope: set<EdgeId>)
      requires p in w.g.nodes
      ensures Tidings(paths + {p}, scope) == Tidings(paths, scope) + Pairs(p, Elems(w.g.nodes[p].outEdges) * scope)
    {
    }

    /** All outputs of an edge that is going to run. */
    method SpreadFrom(e: EdgeId, allowed: Option<set<EdgeId>>, queue: seq<EdgeId>, queued: set<EdgeId>,
                      ghost result: seq<EdgeId>, ghost told: set<(Path, EdgeId)>)
      returns (queue': seq<EdgeId>, queued': set<EdgeId>)
      requires Valid(w.g) && IsEdge(w.g, e) && Spreading(told, result + queue, queued, Scope(allowed))
      modifies this
      ensures Spreading(told + Tidings(Elems(w.g.edges[e].outputs), Scope(allowed)),
                        result + queue', queued', Scope(allowed))
      ensures queued' == queued + Dependents(w.g, e) * Scope(allowed)
    {
      hide Spreading, Scope, ConsumersOf, Pairs;
      var outputs := w.g.edges[e].outputs;
      queue', queued' := queue, queued;
      NothingYet(told, Scope(allowed));
      assert Elems(outputs[..0]) == {};
      for k := 0 to |outputs|
        invariant Spreading(told + Tidings(Elems(outputs[..k]), Scope(allowed)),
                            result + queue', queued', Scope(allowed))
        invariant queued' == queued + ConsumersOf(w.g, Elems(outputs[..k])) * Scope(allowed)
      {
        var p := outputs[k];
        assert EdgeLinked(w.g, e);
        assert outputs[..k + 1] == outputs[..k] + [p];
        ElemsAppend(outputs[..k], p);
        TidingsOneMore(Elems(outputs[..k]), p, Scope(allowed));
        ConsumersOneMore(Elems(outputs[..k]), p, Scope(allowed), queued);
        ghost var sofar := told + Tidings(Elems(outputs[..k]), Scope(allowed));
        queue', queued' := TellConsumers(p, allowed, queue', queued', result, sofar);
        MoreTold(told, Elems(outputs[..k]), p, Scope(allowed));
      }
      assert outputs[..|outputs|] == outputs;
    }

    lemma NothingYet(told: set<(Path, EdgeId)>, scope: set<EdgeId>)
      ensures told + Tidings({}, scope) == told && ConsumersOf(w.g, {}) == {}
    {
    }

    lemma MoreTold(told: set<(Path, EdgeId)>, paths: set<Path>, p: Path, scope: set<EdgeId>)
      requires p in w.g.nodes
      ensures told + Tidings(paths, scope) + Pairs(p, Elems(w.g.nodes[p].outEdges) * scope) ==
          told + Tidings(paths + {p}, scope)
    {
      TidingsOneMore(paths, p, scope);
    }

    lemma ConsumersOneMore(paths: set<Path>, p: Path, scope: set<EdgeId>, queued: set<EdgeId>)
      requires p in w.g.nodes
      ensures queued + ConsumersOf(w.g, paths) * scope + Elems(w.g.nodes[p].outEdges) * scope ==
              queued + ConsumersOf(w.g, paths + {p}) * scope
    {
    }

    // ----------------------------------------------------------------------------------------
    // Both phases together
    // ----------------------------------------------------------------------------------------

    /** What is queued belongs to every closed superset of the stale edges; finished edges have told everyone. */
    ghost predicate Flooding(finished: set<EdgeId>, queued: set<EdgeId>, scope: set<EdgeId>)
    {
      && queued <= scope
      && (forall e :: e in finished ==> Dependents(w.g, e) * scope <= queued)
      && (forall S: set<EdgeId> :: StaleIn(w, v, scope) <= S && ConsumerClosed(w.g, scope, S) ==> queued <= S)
    }

    lemma FloodOn(finished: set<EdgeId>, queued: set<EdgeId>, scope: set<EdgeId>, e: EdgeId)
      requires Flooding(finished, queued, scope) && e in queued
      ensures Flooding(finished + {e}, queued + Dependents(w.g, e) * scope, scope)
    {
      hide Dependents, StaleIn;
      forall S: set<EdgeId> | StaleIn(w, v, scope) <= S && ConsumerClosed(w.g, scope, S)
        ensures queued + Dependents(w.g, e) * scope <= S
      {
        assert queued <= S;
      }
    }

    lemma Flooded(order: seq<EdgeId>, queued: set<EdgeId>, scope: set<EdgeId>)
      requires Flooding(Elems(order), queued, scope) && Lists(order, queued) && StaleIn(w, v, scope) <= queued
      ensures DirtySet(w, v, scope, Elems(order))
    {
      hide Dependents, StaleIn;
      forall e, f | e in queued && f in Dependents(w.g, e) && f in scope
        ensures f in queued
      {
        assert f in Dependents(w.g, e) * scope;
      }
    }

    lemma FloodBegins(queued: set<EdgeId>, scope: set<EdgeId>)
      requires queued == StaleIn(w, v, scope)
      ensures Flooding({}, queued, scope)
    {
      hide Stale, Dependents;
    }

    /** The reasons of a dirty edge: the direct ones, and one for each input that a dirty edge produces. */
    ghost predicate ReasonFor(dirty: set<EdgeId>, e: EdgeId, r: Reason)
    {
      || Direct(w, v, e, r)
      || (r.UpstreamDirty? && IsEdge(w.g, e) && r.path in w.g.edges[e].inputs &&
          ProducerOf(w.g, r.path).Some? && ProducerOf(w.g, r.path).value in dirty)
    }

    /**
     The dirty edges, each once, and `reasons` for exactly these edges. Terminates on every graph, cyclic ones
     included.
     */
    method CollectEdgesToBuild(allowed: Option<set<EdgeId>>) returns (result: seq<EdgeId>)
      requires Valid(w.g) && |w.command| == |w.g.edges| && Scope(allowed) <= AllEdges(w.g)
      modifies this
      ensures NoDup(result) && DirtySet(w, v, Scope(allowed), Elems(result))
      ensures reasons.Keys == Elems(result)
      ensures forall e :: e in reasons ==> reasons[e] != []
      ensures forall e, r :: e in reasons ==> (r in reasons[e] <==> ReasonFor(Elems(result), e, r))
    {
      var queue := FindStale(allowed);
      hide Valid, StaleIn, Dependents, OutputsOf, Explained, Direct, AllEdges;
      var queued := Elems(queue);
      ghost var scope := Scope(allowed);
      FloodBegins(queued, scope);
      result := [];
      assert result + queue == queue;
      NobodyTold(scope);
      while queue != []
        invariant Spreading(Tidings(OutputsOf(w, Elems(result)), scope), result + queue, queued, scope)
        invariant Flooding(Elems(result), queued, scope)
        decreases scope - Elems(result)
      {
        var edge := queue[0];
        NextInOrder(result, queue, queued, scope);
        FloodOn(Elems(result), queued, scope, edge);
        ghost var told := Tidings(OutputsOf(w, Elems(result)), scope);
        TidingsOfEdge(Elems(result), edge, scope);
        result, queue := result + [edge], queue[1..];
        queue, queued := SpreadFrom(edge, allowed, queue, queued, result, told);
      }
      assert result + [] == result;
      Flooded(result, queued, scope);
      AllExplained(result, scope);
    }

    lemma NobodyTold(scope: set<EdgeId>)
      ensures Tidings(OutputsOf(w, Elems([])), scope) == {}
    {
    }

    lemma NextInOrder(result: seq<EdgeId>, queue: seq<EdgeId>, queued: set<EdgeId>, scope: set<EdgeId>)
      requires queue != [] && Lists(result + queue, queued) && queued <= scope <= AllEdges(w.g)
      ensures queue[0] in queued && queue[0] in scope && IsEdge(w.g, queue[0]) && queue[0] !in Elems(result)
      ensures Elems(result + [queue[0]]) == Elems(result) + {queue[0]}
      ensures (result + [queue[0]]) + queue[1..] == result + queue
    {
      var order := result + queue;
      assert order[|result|] == queue[0];
      assert queue[0] in Elems(order);
      forall i | 0 <= i < |result|
        ensures result[i] != queue[0]
      {
        assert order[i] == result[i];
      }
    }

    lemma TidingsOfEdge(finished: set<EdgeId>, e: EdgeId, scope: set<EdgeId>)
      requires IsEdge(w.g, e)
      ensures Tidings(OutputsOf(w, finished + {e}), scope) ==
              Tidings(OutputsOf(w, finished), scope) + Tidings(Elems(w.g.edges[e].outputs), scope)
    {
      OutputsOfOneMore(w, finished, e);
      TidingsOfBoth(OutputsOf(w, finished), Elems(w.g.edges[e].outputs), scope);
    }

    lemma TidingsOfBoth(some: set<Path>, others: set<Path>, scope: set<EdgeId>)
      ensures Tidings(some + others, scope) == Tidings(some, scope) + Tidings(others, scope)
    {
    }

    lemma AllExplained(result: seq<EdgeId>, scope: set<EdgeId>)
      requires Valid(w.g) && reasons.Keys <= scope <= AllEdges(w.g) && Elems(result) <= AllEdges(w.g)
      requires Explained(w, v, Tidings(OutputsOf(w, Elems(result)), scope), reasons)
      ensures forall e, r :: e in reasons ==> (r in reasons[e] <==> ReasonFor(Elems(result), e, r))
      ensures forall e :: e in reasons ==> reasons[e] != []
    {
      ghost var told := Tidings(OutputsOf(w, Elems(result)), scope);
      hide Direct, Valid, Tidings, OutputsOf;
      forall e, r | e in reasons
        ensures r in reasons[e] <==> ReasonFor(Elems(result), e, r)
      {
        assert Listed(w, v, told, e, reasons[e]);
        if r.UpstreamDirty? {
          WhoWasTold(Elems(result), scope, r.path, e);
        }
      }
    }

    lemma WhoWasTold(dirty: set<EdgeId>, scope: set<EdgeId>, p: Path, f: EdgeId)
      requires Valid(w.g) && f in scope && scope <= AllEdges(w.g) && dirty <= AllEdges(w.g)
      ensures (p, f) in Tidings(OutputsOf(w, dirty), scope) <==>
              IsEdge(w.g, f) && p in w.g.edges[f].inputs &&
              ProducerOf(w.g, p).Some? && ProducerOf(w.g, p).value in dirty
    {
      assert IsEdge(w.g, f);
      WrittenByDirty(dirty, p);
      if p in w.g.nodes {
        NodeListsConsumers(w.g, p, f);
      } else {
        assert EdgeLinked(w.g, f);
      }
    }

    lemma WrittenByDirty(dirty: set<EdgeId>, p: Path)
      requires Valid(w.g) && dirty <= AllEdges(w.g)
      ensures p in OutputsOf(w, dirty) <==> ProducerOf(w.g, p).Some? && ProducerOf(w.g, p).value in dirty
    {
      if e :| e in dirty && IsEdge(w.g, e) && p in w.g.edges[e].outputs {
        assert EdgeLinked(w.g, e);
      }
      if ProducerOf(w.g, p).Some? {
        assert NodeLinked(w.g, p);
      }
    }

    /**
     `build` with and without targets. Unless a target has no producer, there is a scope `C` and its dirty set `P`, and
     a plan exactly when the dirty edges have no cycle; it lists them in topological order. The dirty set contains,
     with an edge, every consumer in the scope: nothing that would become stale by this build is left outside the plan.
     */
    method Build(targets: seq<string>)
      returns (r: Result<seq<EdgeId>, BuildError>, ghost C: set<EdgeId>, ghost P: set<EdgeId>)
      requires Valid(w.g) && |w.command| == |w.g.edges|
      modifies this
      ensures (r.Ok? || r.error.Cyclic?) <==> forall t :: t in targets ==> ProducerOf(w.g, t).Some?
      ensures r.Ok? || r.error.Cyclic? ==> InScope(w.g, targets, C) && ProducerClosed(w.g, C) && C <= AllEdges(w.g)
      ensures r.Ok? || r.error.Cyclic? ==> forall e ::
        e in C <==> if targets == [] then IsEdge(w.g, e)
                    else exists t ::
                      t in targets && ProducerOf(w.g, t).Some? &&
                      (ProducerOf(w.g, t).value == e || Ancestor(w.g, e, ProducerOf(w.g, t).value))
      ensures r.Ok? || r.error.Cyclic? ==> DirtySet(w, v, C, P) && (r.Ok? <==> Acyclic(w.g, P))
      ensures r.Ok? ==> Elems(r.value) == P && Topological(w.g, r.value)
      ensures r.Ok? || r.error.Cyclic? ==> reasons.Keys == P && forall e, why :: e in reasons ==>
                (why in reasons[e] <==> ReasonFor(P, e, why))
      ensures r.Err? && !r.error.Cyclic? ==> reasons == old(reasons)
      ensures r.Err? && !r.error.Cyclic? ==>
        exists k :: 0 <= k < |targets| && ProducerOf(w.g, targets[k]).None? &&
                    (forall j :: 0 <= j < k ==> ProducerOf(w.g, targets[j]).Some?) &&
                    r.error == if targets[k] in w.g.nodes then NotProduced(targets[k]) else UnknownTarget(targets[k])
    {
      hide Valid, ProducerClosed, Upstream, AllEdges, DirtySet, Topological, Acyclic, ReasonFor, Ancestor;
      P := {};
      var allowed: Option<set<EdgeId>> := None;
      if targets == [] {
        AllEdgesAreClosed(w.g);
        C := AllEdges(w.g);
        forall e
          ensures e in C <==> IsEdge(w.g, e)
        {
          EdgeInAll(w.g, e);
        }
      } else {
        var closure := CollectTargetClosure(targets);
        if closure.Err? {
          C := {};
          return Err(closure.error), C, P;
        }
        UpstreamIsClosed(w.g, Seeds(w.g, targets), closure.value);
        allowed := Some(closure.value);
        C := closure.value;
      }
      var edges := CollectEdgesToBuild(allowed);
      P := Elems(edges);
      DirtyEdgesAreAllowed(w, v, C, P);
      var planned := Plan(w.g, edges);
      if planned.Err? {
        return Err(Cyclic), C, P;
      }
      PermutationElems(planned.value, edges);
      return Ok(planned.value), C, P;
    }
  }

  lemma UpstreamIsClosed(g: Graph, seeds: set<EdgeId>, C: set<EdgeId>)
    requires Upstream(g, seeds, C)
    ensures ProducerClosed(g, C)
  {
  }

  lemma DirtyEdgesAreAllowed(w: World, v: View, C: set<EdgeId>, P: set<EdgeId>)
    requires DirtySet(w, v, C, P) && C <= AllEdges(w.g)
    ensures P <= C && P <= AllEdges(w.g)
  {
  }
}
