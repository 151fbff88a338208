/** The real hash in the builder's command check: a change of one character never goes unnoticed. */
module CommandChange {
  import opened Prelude
  import opened Graphs
  import opened World
  import opened Builder
  import opened Hash

  ghost predicate OneByteChars(s: string)
  {
    forall k :: 0 <= k < |s| ==> s[k] as int < 256
  }

  function Bytes(s: string): (b: seq<Byte>)
    requires OneByteChars(s)
    ensures |b| == |s| && forall k :: 0 <= k < |s| ==> b[k] == s[k] as int
  {
    if s == "" then []
    else
      var code: Byte := s[0] as int;
      [code] + Bytes(s[1..])
  }

  /**
   The output was logged under the hash of another command of the same length that differs from the present one in
   exactly one character: the edge is stale because of its command.
   */
  lemma OneCharacterIsStale(w: World, v: View, e: EdgeId, o: Path, logged: Command, k: nat)
    requires IsEdge(w.g, e) && e < |w.command| && o in w.g.edges[e].outputs
    requires OneByteChars(logged) && OneByteChars(w.command[e])
    requires k < |logged| == |w.command[e]| && logged[k] != w.command[e][k]
    requires forall j :: 0 <= j < |logged| && j != k ==> logged[j] == w.command[e][j]
    requires w.tools.hash(w.command[e]) == HashOf(Bytes(w.command[e]))
    requires v.log.Some? && o in v.log.value && v.log.value[o] == HashOf(Bytes(logged))
    ensures Direct(w, v, e, CommandChanged(o)) && Stale(w, v, e)
  {
    var old', new' := Bytes(logged), Bytes(w.command[e]);
    hide HashOf, Bytes;
    assert old' == new'[k := old'[k]];
    OneByteIsAlwaysSeen(new', k, old'[k]);
    assert Direct(w, v, e, CommandChanged(o));
  }
}
