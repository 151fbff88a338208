/** The two read-only scans of `Edge`, against the notions that the planner and the builder use. */
module EdgeScans {
  import opened Prelude
  import opened Graphs
  import opened World
  import opened Builder

  /** `Edge::depends_on`: some input is an output of the other edge. */
  method DependsOnScan(g: Graph, e: EdgeId, other: EdgeId) returns (b: bool)
    requires IsEdge(g, e) && IsEdge(g, other)
    ensures b <==> DependsOn(g, e, other)
  {
    var inputs, outputs := g.edges[e].inputs, g.edges[other].outputs;
    for i := 0 to |inputs|
      invariant forall k :: 0 <= k < i ==> inputs[k] !in outputs
    {
      for j := 0 to |outputs|
        invariant inputs[i] !in outputs[..j]
      {
        if inputs[i] == outputs[j] {
          assert inputs[i] in g.edges[e].inputs && outputs[j] in g.edges[other].outputs;
          return true;
        }
      }
      assert outputs[..|outputs|] == outputs;
    }
    return false;
  }

  /** `Edge::needs_build` says yes exactly when the builder would report a file-state reason. */
  method NeedsBuild(g: Graph, v: View, e: EdgeId) returns (b: bool)
    requires IsEdge(g, e)
    ensures b <==> exists r :: FileReason(g, v, e, r)
  {
    var inputs, outputs := g.edges[e].inputs, g.edges[e].outputs;
    for k := 0 to |outputs|
      invariant forall j :: 0 <= j < k ==> outputs[j] in v.files
    {
      if outputs[k] !in v.files {
        assert FileReason(g, v, e, OutputMissing(outputs[k]));
        return true;
      }
    }
    for i := 0 to |inputs|
      invariant forall j :: 0 <= j < i ==> Settled(v, inputs[j], outputs)
    {
      if inputs[i] !in v.files {
        assert FileReason(g, v, e, InputMissing(inputs[i]));
        return true;
      }
      for k := 0 to |outputs|
        invariant forall j :: 0 <= j < k ==> v.files[inputs[i]].mtime <= v.files[outputs[j]].mtime
      {
        if Stamp(v.files, inputs[i]) > Stamp(v.files, outputs[k]) {
          assert FileReason(g, v, e, InputNewer(inputs[i], outputs[k]));
          return true;
        }
      }
    }
    return false;
  }

  /** The input exists and is no newer than any output. */
  ghost predicate Settled(v: View, input: Path, outputs: seq<Path>)
    requires forall j :: 0 <= j < |outputs| ==> outputs[j] in v.files
  {
    input in v.files && forall j :: 0 <= j < |outputs| ==> v.files[input].mtime <= v.files[outputs[j]].mtime
  }
}
