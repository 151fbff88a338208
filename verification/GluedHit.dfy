/**
 Why texts must be plain. A deterministic command that reads nothing but what its depfile lists, with the keys of the
 code and any hash whatsoever, gets a stale hit: one file that holds the bytes between two dependencies makes the key of
 the two.
 */
module GluedHit {
  import opened Prelude
  import opened Graphs
  import opened World
  import opened CachedEdges
  import opened StaleHits
  import opened HistoryInvariant
  import opened CacheTheorem
  import opened CodeKeys
  import BuildLog
  import DepsLog
  import CacheKey
  import Hash

  /** What stands in the stream between an empty `a` and an empty `b`. */
  function Glue(): Content
  {
    "\0" + ("dependency_path" + ("\0" + ("b" + ("\0" + ("dependency_content" + "\0")))))
  }

  predicate IsGlue(c: Contents)
  {
    "a" in c && c["a"] == Glue()
  }

  /** It reads `a`, and `b` only if `a` does not hold the glue. */
  function Listed(c: Contents): seq<Path>
  {
    if IsGlue(c) then ["a"] else ["a", "b"]
  }

  function Tool(h: CacheKey.Bytes -> nat): Tools
  {
    Tools(x => x == "cc", content => true, x => {"a"}, x => {"o"}, x => Some("o"),
          (x, c) => Elems(Listed(c)), (x, o, c) => if IsGlue(c) then "B" else "A", (x, c) => Listed(c),
          x => 7, x => Some("id"), (who, x, s) => h(Stream(who, x, s)), c => Hash.HashOf(Octets(c)))
  }

  lemma {:induction false} AsciiIsOctets(s: string)
    requires forall k :: 0 <= k < |s| ==> 0 < s[k] as int < 128
    ensures CacheKey.Ascii(s) == Octets(s)
  {
    if s != "" {
      AsciiIsOctets(s[1..]);
      assert Octets(s) == [Octet(s[0])] + Octets(s[1..]);
    }
  }

  lemma OctetsConcat(s: string, t: string)
    ensures Octets(s + t) == Octets(s) + Octets(t)
  {
  }

  lemma NulOctet()
    ensures Octets("\0") == CacheKey.NUL && Octets("") == []
  {
  }

  lemma PathName()
    ensures Octets("dependency_path") == CacheKey.Name(CacheKey.DependencyPath)
  {
    hide Octets, CacheKey.Ascii;
    AsciiIsOctets("dependency_path");
  }

  lemma ContentName()
    ensures Octets("dependency_content") == CacheKey.Name(CacheKey.DependencyContent)
  {
    hide Octets, CacheKey.Ascii;
    AsciiIsOctets("dependency_content");
  }

  lemma GlueOctets()
    ensures Octets(Glue()) ==
            CacheKey.NUL + (CacheKey.Name(CacheKey.DependencyPath) + (CacheKey.NUL + (Octets("b") +
            (CacheKey.NUL + (CacheKey.Name(CacheKey.DependencyContent) + CacheKey.NUL)))))
  {
    hide Octets, CacheKey.Name;
    PathName();
    ContentName();
    NulOctet();
    OctetsConcat("dependency_content", "\0");
    OctetsConcat("\0", "dependency_content" + "\0");
    OctetsConcat("b", "\0" + ("dependency_content" + "\0"));
    OctetsConcat("\0", "b" + ("\0" + ("dependency_content" + "\0")));
    OctetsConcat("dependency_path", "\0" + ("b" + ("\0" + ("dependency_content" + "\0"))));
    OctetsConcat("\0", "dependency_path" + ("\0" + ("b" + ("\0" + ("dependency_content" + "\0")))));
  }

  /** The glue is the content of two empty dependencies glued together. */
  lemma GlueIsGlued()
    ensures CacheKey.Dependency(Octets("a"), Octets(Glue())) ==
            CacheKey.Glued(CacheKey.Dependency(Octets("a"), []), CacheKey.Dependency(Octets("b"), []))
  {
    GlueOctets();
    hide Octets, Glue, CacheKey.Name;
    Regrouped(CacheKey.Name(CacheKey.DependencyPath), Octets("b"), CacheKey.Name(CacheKey.DependencyContent));
  }

  lemma Regrouped(path: CacheKey.Bytes, b: CacheKey.Bytes, content: CacheKey.Bytes)
    ensures CacheKey.NUL + (path + (CacheKey.NUL + (b + (CacheKey.NUL + (content + CacheKey.NUL))))) ==
            [] + CacheKey.NUL + CacheKey.Field(path, b) + content + CacheKey.NUL + []
  {
  }

  lemma OneDependency(p: Path, content: Content)
    ensures Dependencies([(p, content)]) == [CacheKey.Dependency(Octets(p), Octets(content))]
  {
    hide Octets;
  }

  lemma TwoDependencies(p: Path, content: Content, q: Path, other: Content)
    ensures Dependencies([(p, content), (q, other)]) ==
            [CacheKey.Dependency(Octets(p), Octets(content)), CacheKey.Dependency(Octets(q), Octets(other))]
  {
    hide Octets;
  }

  /** One file that holds the glue and two empty files give one stream. */
  lemma SameStreams(who: string, x: Command)
    ensures Stream(who, x, [("a", Glue())]) == Stream(who, x, [("a", ""), ("b", "")])
  {
    hide Octets, Glue, Dependencies, CacheKey.KeyStream, CacheKey.Glued;
    GlueIsGlued();
    NulOctet();
    OneDependency("a", Glue());
    TwoDependencies("a", "", "b", "");
    GluedStream(Octets(who), Octets(x), CacheKey.Dependency(Octets("a"), []), CacheKey.Dependency(Octets("b"), []));
  }

  lemma GluedStream(who: CacheKey.Bytes, x: CacheKey.Bytes, first: CacheKey.Dependency, second: CacheKey.Dependency)
    ensures CacheKey.KeyStream(who, x, [CacheKey.Glued(first, second)]) == CacheKey.KeyStream(who, x, [first, second])
  {
    hide *;
    CacheKey.GluedNeighbours(who, x, [], first, second, []);
    assert [] + [CacheKey.Glued(first, second)] + [] == [CacheKey.Glued(first, second)];
    assert [] + [first, second] + [] == [first, second];
  }

  lemma ToolIsDisciplined(h: CacheKey.Bytes -> nat)
    ensures Disciplined(Tool(h)) && Deterministic(Tool(h))
  {
    var t := Tool(h);
    hide Glue;
    forall x: Command, c: Contents, d: Contents | Agree(c, d, t.sees(x, c))
      ensures SameRun(t, x, c, d)
    {
      assert ["a"][0] == "a" && ["a", "b"][0] == "a";
      assert "a" in t.sees(x, c);
    }
  }

  lemma ToolIsPrintable(h: CacheKey.Bytes -> nat)
    ensures Printable(Tool(h))
  {
    hide Glue, Stream, Octets, Hash.HashOf;
    var t := Tool(h);
    forall x: Command, c: Contents
      ensures DepsLog.CleanNames(t.deps(x, c))
    {
      assert DepsLog.CleanName("a") && DepsLog.CleanName("b");
    }
  }

  lemma ToolIsPlaceable(h: CacheKey.Bytes -> nat)
    ensures Placeable(Tool(h), "cc") && Cacheable(Tool(h), "cc", "o")
    ensures ReadsItsDeps(Tool(h), "cc") && KeyedByCode(Tool(h), h)
  {
    hide Glue, Stream, Octets, Hash.HashOf;
    var t := Tool(h);
    forall c: Contents
      ensures Discovered(t, "cc", c) !! t.outputs("cc")
    {
      assert "o" !in ["a"] && "o" !in ["a", "b"];
    }
  }

  lemma SnapshotOfMore(paths: seq<Path>, p: Path, c: Contents)
    requires p in c && Snapshot(paths, c).Some?
    ensures Snapshot(paths + [p], c) == Some(Snapshot(paths, c).value + [(p, c[p])])
  {
    var more := paths + [p];
    assert more[..|more| - 1] == paths && more[|more| - 1] == p;
  }

  lemma OneSnapshot(p: Path, c: Contents)
    requires p in c
    ensures Snapshot([p], c) == Some([(p, c[p])])
  {
    assert Snapshot([], c) == Some([]);
    SnapshotOfMore([], p, c);
    assert [] + [p] == [p] && [] + [(p, c[p])] == [(p, c[p])];
  }

  lemma TwoSnapshot(p: Path, q: Path, c: Contents)
    requires p in c && q in c
    ensures Snapshot([p, q], c) == Some([(p, c[p]), (q, c[q])])
  {
    hide Snapshot;
    OneSnapshot(p, c);
    SnapshotOfMore([p], q, c);
    assert [p] + [q] == [p, q];
    assert [(p, c[p])] + [(q, c[q])] == [(p, c[p]), (q, c[q])];
  }

  function Whole(): Contents
  {
    map["a" := Glue()]
  }

  function Split(): Contents
  {
    map["a" := "", "b" := ""]
  }

  lemma WholeAndSplit(h: CacheKey.Bytes -> nat)
    ensures var t := Tool(h);
      && t.deps("cc", Whole()) == ["a"] && t.deps("cc", Split()) == ["a", "b"]
      && t.output("cc", "o", Whole()) == "B" && t.output("cc", "o", Split()) == "A"
      && t.identity("cc") == Some("id") && t.depTarget("cc") == Some("o")
      && Occurring(t, Whole()) && Occurring(t, Split())
  {
    assert |Glue()| > 0;
    hide Glue, Stream, Octets, Hash.HashOf;
  }

  /** Their snapshots have one key. */
  lemma OneKey(h: CacheKey.Bytes -> nat) returns (k: nat)
    ensures KeyIs(Tool(h), "cc", ["a"], Whole(), k) && KeyIs(Tool(h), "cc", ["a", "b"], Split(), k)
  {
    hide Glue, Stream, Octets, Hash.HashOf, Snapshot;
    OneSnapshot("a", Whole());
    TwoSnapshot("a", "b", Split());
    SameStreams("id", "cc");
    k := h(Stream("id", "cc", [("a", Glue())]));
  }

  /** What is stored where `a` holds the glue is found where `a` and `b` are empty. */
  lemma GlueIsFound(h: CacheKey.Bytes -> nat) returns (k: nat)
    ensures Stores(Tool(h), "cc", "o", Whole(), k) && Finds(Tool(h), "cc", "o", ["a", "b"], Split(), k)
    ensures Tool(h).output("cc", "o", Whole()) != Tool(h).output("cc", "o", Split())
  {
    hide Tool, Placeable, Cacheable, KeyIs, Occurring, Whole, Split, RecordFor;
    ToolIsPlaceable(h);
    WholeAndSplit(h);
    ReportIsRecord(Tool(h), "cc", "o", Split());
    k := OneKey(h);
  }

  /**
   All that is asked of commands holds, even that they read only what their depfiles list, so that the depfiles decide
   output and list; and yet a stale hit is possible, and a commit is wrong in some history, whatever the hash is.
   */
  lemma {:induction false} ReadingDepsIsNotEnough(h: CacheKey.Bytes -> nat)
    ensures Disciplined(Tool(h)) && Printable(Tool(h)) && KeyedByCode(Tool(h), h)
    ensures ReadsItsDeps(Tool(h), "cc") && HitsAreTrue(Tool(h), "cc", "o") && ListsAreTrue(Tool(h), "cc")
    ensures !NoStaleHits(Tool(h)) && !CommitsAreTrue(Tool(h))
  {
    hide *;
    ToolIsDisciplined(h);
    ToolIsPrintable(h);
    ToolIsPlaceable(h);
    var k := GlueIsFound(h);
    ReadingDepsIsEnough(Tool(h), "cc", "o");
    StaleHitBreaksACommit(Tool(h), "cc", "o", Whole(), "cc", "o", ["a", "b"], Split(), k);
    StaleHitIsPossible(Tool(h), "cc", "o", Whole(), "cc", "o", ["a", "b"], Split(), k);
  }

  lemma StaleHitIsPossible(t: Tools, x: Command, o: Path, c: Contents, y: Command, q: Path, record: seq<Path>,
                           d: Contents, k: nat)
    requires Stores(t, x, o, c, k) && Finds(t, y, q, record, d, k) && t.output(y, q, d) != t.output(x, o, c)
    ensures !NoStaleHits(t)
  {
    hide Stores, Finds;
  }
}
