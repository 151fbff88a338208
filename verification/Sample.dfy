/**
 The standing assumptions do not contradict each other, the real 64-bit hash included: one edge that compares `a` with a
 file `b` that only its depfile names, in a history in which files hold "x" or "y", meets all of them.
 */
module Sample {
  import opened Prelude
  import opened Graphs
  import opened World
  import opened HistoryInvariant
  import opened CachedEdges
  import opened StaleHits
  import opened CacheTheorem
  import opened CodeKeys
  import opened OneEdgeHistory
  import BuildLog
  import DepsLog
  import CacheKey
  import Hash

  /** The hash of the code. */
  function Fnv(stream: CacheKey.Bytes): nat
  {
    Hash.HashOf(stream)
  }

  predicate Small(content: Content)
  {
    content == "x" || content == "y"
  }

  function Compared(c: Contents): Content
  {
    if "a" in c && "b" in c && c["a"] == c["b"] then "x" else "y"
  }

  function SampleTools(): Tools
  {
    Tools(x => x == "cmp", content => Small(content), x => {"a"}, x => {"o"}, x => Some("o"), (x, c) => {"a", "b"},
          (x, o, c) => Compared(c), (x, c) => ["a", "b"], x => 7, x => Some("id"),
          (who, x, s) => Fnv(Stream(who, x, s)), content => Fnv(Octets(content)))
  }

  lemma ToolsAreDisciplined()
    ensures Disciplined(SampleTools())
  {
    hide Stream, Octets, Fnv;
    var t := SampleTools();
    assert Elems(["a", "b"]) == {"a", "b"};
    forall x: Command, c: Contents, d: Contents | Agree(c, d, t.sees(x, c))
      ensures SameRun(t, x, c, d)
    {
      assert "a" in t.sees(x, c) && "b" in t.sees(x, c);
    }
  }

  lemma ToolsArePrintable()
    ensures Printable(SampleTools())
  {
    hide Stream, Octets, Fnv;
    var t := SampleTools();
    forall x: Command, c: Contents
      ensures DepsLog.CleanNames(t.deps(x, c))
    {
      assert DepsLog.CleanName("a") && DepsLog.CleanName("b");
    }
  }

  lemma CommandIsPlaceable()
    ensures Placeable(SampleTools(), "cmp") && Cacheable(SampleTools(), "cmp", "o")
    ensures KeyedByCode(SampleTools(), Fnv)
    ensures forall c: Contents :: "b" in Discovered(SampleTools(), "cmp", c)
    ensures "b" !in SampleTools().inputs("cmp")
  {
    hide Stream, Octets, Fnv;
    assert Elems(["a", "b"]) == {"a", "b"};
  }

  // ------------------------------------------------------------------------------------------
  // The real hash on these contents
  // ------------------------------------------------------------------------------------------

  function Key(u: Content, v: Content): nat
  {
    Fnv(Stream("id", "cmp", [("a", u), ("b", v)]))
  }

  lemma SmallOctets(u: Content, v: Content)
    requires Small(u) && Small(v)
    ensures Octets(v) == Octets(u)[0 := Octet(v[0])] && (u != v ==> Octet(v[0]) != Octets(u)[0])
  {
  }

  lemma TwoDependencies(u: Content, v: Content)
    ensures Dependencies([("a", u), ("b", v)]) ==
            [CacheKey.Dependency(Octets("a"), Octets(u)), CacheKey.Dependency(Octets("b"), Octets(v))]
  {
    hide Octets;
  }

  /** If one of the two files changes, the key does. */
  lemma OneChangeIsSeen(u: Content, v: Content, u': Content, v': Content)
    requires Small(u) && Small(v) && Small(u') && Small(v') && (u == u' <==> v != v')
    ensures Key(u, v) != Key(u', v')
  {
    hide Octets, Dependencies, CacheKey.KeyStream, Hash.HashOf;
    TwoDependencies(u, v);
    TwoDependencies(u', v');
    SmallOctets(u, u');
    SmallOctets(v, v');
    OneLength(u);
    OneLength(v);
    var a, b := CacheKey.Dependency(Octets("a"), Octets(u)), CacheKey.Dependency(Octets("b"), Octets(v));
    var a', b' := CacheKey.Dependency(Octets("a"), Octets(u')), CacheKey.Dependency(Octets("b"), Octets(v'));
    if u != u' {
      assert [a, b][0 := a'] == [a', b] == [a', b'];
      CacheKey.OneByteOfAFileIsSeen(Octets("id"), Octets("cmp"), [a, b], 0, 0, Octet(u'[0]));
    } else {
      assert [a, b][1 := b'] == [a, b'] == [a', b'];
      CacheKey.OneByteOfAFileIsSeen(Octets("id"), Octets("cmp"), [a, b], 1, 0, Octet(v'[0]));
    }
  }

  lemma OneLength(u: Content)
    requires Small(u)
    ensures |Octets(u)| == 1
  {
  }

  /** A state under which something is stored or found, and the key. */
  lemma SnapshotOfBoth(c: Contents)
    ensures Snapshot(["a", "b"], c).Some? ==>
              "a" in c && "b" in c && Snapshot(["a", "b"], c).value == [("a", c["a"]), ("b", c["b"])]
  {
    SnapshotTells(["a", "b"], c);
    hide Snapshot;
    if Snapshot(["a", "b"], c).Some? {
      assert ["a", "b"][0] in c && ["a", "b"][1] in c;
      var s := Snapshot(["a", "b"], c).value;
      assert s == [s[0], s[1]];
    }
  }

  lemma KeyOfState(x: Command, c: Contents, k: nat)
    requires x == "cmp" && Occurring(SampleTools(), c) && KeyIs(SampleTools(), x, ["a", "b"], c, k)
    ensures "a" in c && "b" in c && Small(c["a"]) && Small(c["b"]) && k == Key(c["a"], c["b"])
  {
    hide Stream, Octets, Fnv, Snapshot, Small;
    SnapshotOfBoth(c);
  }

  lemma StoredByCompare(x: Command, o: Path, c: Contents, k: nat)
    requires Stores(SampleTools(), x, o, c, k)
    ensures x == "cmp" && Occurring(SampleTools(), c) && KeyIs(SampleTools(), x, ["a", "b"], c, k)
  {
    hide KeyIs, Stream, Octets, Fnv, Occurring;
  }

  lemma FoundByCompare(y: Command, q: Path, record: seq<Path>, d: Contents, k: nat)
    requires Finds(SampleTools(), y, q, record, d, k)
    ensures y == "cmp" && Occurring(SampleTools(), d) && KeyIs(SampleTools(), y, ["a", "b"], d, k)
    ensures record == ["a", "b"]
  {
    hide KeyIs, Stream, Octets, Fnv, Occurring;
  }

  /** No hit is stale: when both files change, they are equal if they were before. */
  lemma NothingIsStale()
    ensures NoStaleHits(SampleTools()) && NoStaleLists(SampleTools())
  {
    var t := SampleTools();
    hide Stores, Finds, KeyIs, Occurring, Key, Stream, Octets, Fnv;
    forall x: Command, o, c: Contents, y: Command, q, record, d: Contents, k |
      Stores(t, x, o, c, k) && Finds(t, y, q, record, d, k)
      ensures t.output(y, q, d) == t.output(x, o, c) && record == t.deps(y, d)
    {
      StoredByCompare(x, o, c, k);
      FoundByCompare(y, q, record, d, k);
      KeyOfState(x, c, k);
      KeyOfState(y, d, k);
      if c["a"] == d["a"] <==> c["b"] != d["b"] {
        OneChangeIsSeen(c["a"], c["b"], d["a"], d["b"]);
      }
    }
  }

  /** All assumptions of the theorems about histories, with a cacheable edge and a dependency the manifest hides. */
  lemma AssumptionsAreConsistent() returns (w: World)
    ensures w.tools == SampleTools() && w.command == ["cmp"] && ValidWorld(w) && Printable(w.tools)
    ensures KeyedByCode(w.tools, Fnv) && NoStaleHits(w.tools) && NoStaleLists(w.tools)
    ensures Cacheable(w.tools, "cmp", "o") && "b" !in w.tools.inputs("cmp")
    ensures forall c: Contents :: "b" in Discovered(w.tools, "cmp", c)
    ensures CommitsAreTrue(w.tools) && NothingToBuildIsTrue(w.tools)
  {
    hide SampleTools, Disciplined, Printable, Placeable, Cacheable, KeyedByCode, NoStaleHits, NoStaleLists,
        CommitsAreTrue, NothingToBuildIsTrue, ValidWorld, Discovered;
    ToolsAreDisciplined();
    ToolsArePrintable();
    CommandIsPlaceable();
    NothingIsStale();
    w := OneEdgeWorld(SampleTools(), "cmp");
    ReportsAreTrueIffNoStaleHits(SampleTools());
  }
}
