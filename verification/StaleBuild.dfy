/**
 A concrete stale build, with the keys of the code. One edge copies `a` to `o`; its manifest declares `a`, its depfile
 lists nothing. The entry that was stored for one content of `a` is found for every other.
 */
module StaleBuild {
  import opened Prelude
  import opened Graphs
  import opened World
  import opened CachedEdges
  import opened StaleHits
  import opened History
  import opened HistoryInvariant
  import opened StaleHistory
  import opened CodeKeys
  import opened OneEdgeHistory
  import BuildLog
  import DepsLog
  import CacheKey
  import Hash

  predicate IsPlain(content: Content)
  {
    forall k :: 0 <= k < |content| ==> 0 < content[k] as int < 256
  }

  function CopyTools(h: CacheKey.Bytes -> nat): Tools
  {
    Tools(x => x == "cp", content => IsPlain(content), x => {"a"}, x => {"o"}, x => Some("o"), (x, c) => {"a"},
          (x, o, c) => if "a" in c then c["a"] else "", (x, c) => [], x => 7, x => Some("id"),
          (who, x, s) => h(Stream(who, x, s)), content => Hash.HashOf(Octets(content)))
  }

  lemma ToolsAreDisciplined(h: CacheKey.Bytes -> nat)
    ensures Disciplined(CopyTools(h)) && Printable(CopyTools(h))
  {
    hide Stream, Octets, Hash.HashOf;
    var t := CopyTools(h);
    forall x: Command, c: Contents, d: Contents | Agree(c, d, t.sees(x, c))
      ensures SameRun(t, x, c, d)
    {
      assert "a" in t.sees(x, c);
    }
  }

  lemma CopyIsPlaceable(h: CacheKey.Bytes -> nat)
    ensures Placeable(CopyTools(h), "cp") && Cacheable(CopyTools(h), "cp", "o")
    ensures KeyedByCode(CopyTools(h), h) && PlainTools(CopyTools(h))
  {
    hide Stream, Octets, Hash.HashOf;
  }

  /** There is only one stream, so the hash does not matter. */
  lemma OnlyOneStream(h: CacheKey.Bytes -> nat)
    ensures Collisionless(CopyTools(h), h)
  {
    var t := CopyTools(h);
    hide Stream, Octets, Hash.HashOf, KeyIs, Occurring;
    forall x: Command, o, c: Contents, k, y: Command, q, record, d: Contents, k', a, b |
      Stores(t, x, o, c, k) && Finds(t, y, q, record, d, k') && StreamIs(t, x, t.deps(x, c), c, a) &&
      StreamIs(t, y, record, d, b)
      ensures a == b
    {
      assert x == "cp" && y == "cp" && record == [];
    }
  }

  lemma StreamOfNothing(h: CacheKey.Bytes -> nat, c: Contents)
    ensures KeyIs(CopyTools(h), "cp", [], c, h(Stream("id", "cp", [])))
  {
    hide Stream, Octets, Hash.HashOf;
  }

  function Holding(content: Content): Contents
  {
    map["a" := content]
  }

  lemma InputMatters(h: CacheKey.Bytes -> nat, before: Content, after: Content)
    requires IsPlain(before) && IsPlain(after) && before != after
    ensures var t := CopyTools(h);
      && Occurring(t, Holding(before)) && Occurring(t, Holding(after))
      && t.output("cp", "o", Holding(after)) != t.output("cp", "o", Holding(before))
      && "a" !in t.deps("cp", Holding(before)) && Snapshot(t.deps("cp", Holding(before)), Holding(before)).Some?
      && DiffersAt(Holding(before), Holding(after), "a")
  {
    hide Stream, Octets, Hash.HashOf, IsPlain;
  }

  /** The key covers none of what the copy reads: its entry for an old `a` is found for a new one. */
  lemma HitCanBeStale(h: CacheKey.Bytes -> nat, before: Content, after: Content)
    requires IsPlain(before) && IsPlain(after) && before != after
    ensures StaleAfter(CopyTools(h), "cp", "o", Holding(before), Holding(after), "a")
    ensures !ListsWhatMatters(CopyTools(h), "cp", "o")
  {
    hide CopyTools, IsPlain, Holding, FoundAgain, Snapshot, Occurring, DiffersAt;
    InputMatters(h, before, after);
    FoundForAll(h, Holding(before), Holding(after));
    assert Matters(CopyTools(h), "cp", "o", Holding(before), Holding(after), "a");
  }

  lemma FoundForAll(h: CacheKey.Bytes -> nat, c: Contents, d: Contents)
    requires Occurring(CopyTools(h), c) && Occurring(CopyTools(h), d)
    ensures FoundAgain(CopyTools(h), "cp", "o", c, d)
  {
    var t, k := CopyTools(h), h(Stream("id", "cp", []));
    CopyIsPlaceable(h);
    StreamOfNothing(h, c);
    StreamOfNothing(h, d);
    NothingListed(h, c);
    hide CopyTools, Placeable, Cacheable, KeyIs, Occurring, Stream;
    ReportIsRecord(t, "cp", "o", c);
    assert Stores(t, "cp", "o", c, k) && Finds(t, "cp", "o", t.deps("cp", c), d, k);
  }

  lemma NothingListed(h: CacheKey.Bytes -> nat, c: Contents)
    ensures CopyTools(h).deps("cp", c) == [] && CopyTools(h).depTarget("cp") == Some("o")
  {
  }

  lemma CopyParts(h: CacheKey.Bytes -> nat)
    ensures OwnTargets(CopyTools(h)) && CopyTools(h).inputs("cp") == {"a"} && IsPlain("old") && IsPlain("new")
  {
    hide Stream, Octets, Hash.HashOf;
  }

  lemma NotDecided(t: Tools, x: Command, o: Path, c: Contents, d: Contents, p: Path)
    requires OwnTargets(t) && KeysTellApart(t) && Placeable(t, x) && Cacheable(t, x, o) && StaleAfter(t, x, o, c, d, p)
    ensures !DepfilesDecide(t)
  {
    hide OwnTargets, KeysTellApart, Placeable, Cacheable, FoundAgain, DiffersAt, Unnoticed;
    FoundIffUnchanged(t, x, o, c, d);
    assert !HitsAreTrue(t, x, o);
  }

  /** All assumptions hold under which depfiles must decide outputs, whatever the hash; that of the copy does not. */
  lemma {:induction false} OnlyTheDepfileIsShort(h: CacheKey.Bytes -> nat) returns (w: World)
    ensures w.tools == CopyTools(h) && w.command == ["cp"] && ValidWorld(w) && Printable(w.tools)
    ensures PlainTools(w.tools) && KeyedByCode(w.tools, h) && Collisionless(w.tools, h)
    ensures !DepfilesDecide(w.tools)
  {
    hide *;
    ToolsAreDisciplined(h);
    CopyIsPlaceable(h);
    OnlyOneStream(h);
    CopyParts(h);
    HitCanBeStale(h, "old", "new");
    w := OneEdgeWorld(CopyTools(h), "cp");
    CodeKeysTellApart(CopyTools(h), h);
    NotDecided(CopyTools(h), "cp", "o", Holding("old"), Holding("new"), "a");
    OneEdgeParts(w, "cp");
  }

  lemma OneEdgeParts(w: World, x: Command)
    requires OneEdge(w, x)
    ensures ValidWorld(w) && w.command == [x]
  {
    hide ValidWorld;
  }

  /** So some history commits the old output, and the checks let it pass from then on. */
  lemma StaleOutputIsCommitted(h: CacheKey.Bytes -> nat)
    ensures exists s: State, s': State :: Occurs(CopyTools(h), s) && CommitsStale(CopyTools(h), "cp", true, s, s')
  {
    var t := CopyTools(h);
    CopyParts(h);
    assert {"a"} <= Holding("new").Keys;
    hide CopyTools, Disciplined, Printable, Stores, Finds, ListsWhatMatters, Occurs, CommitsStale, DiffersAt, Holding,
        IsPlain;
    ToolsAreDisciplined(h);
    HitCanBeStale(h, "old", "new");
    var k :| Stores(t, "cp", "o", Holding("old"), k) &&
      Finds(t, "cp", "o", t.deps("cp", Holding("old")), Holding("new"), k);
    StaleHitIsCommitted(t, "cp", "o", Holding("old"), "cp", "o", t.deps("cp", Holding("old")), Holding("new"), k);
  }
}
