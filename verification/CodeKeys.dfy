/**
 The keys of the code: a hash of the framed stream of identity, command and dependencies. For texts without NUL
 characters, and as long as the hash does not collide on what the history stores and looks for, a command finds only
 what it stored itself, and builds can be trusted exactly when depfiles decide outputs.
 */
module CodeKeys {
  import opened Prelude
  import opened Graphs
  import opened World
  import opened CachedEdges
  import opened StaleHits
  import opened HistoryInvariant
  import opened CacheTheorem
  import CacheKey
  import Hash

  // ------------------------------------------------------------------------------------------
  // Texts as bytes
  // ------------------------------------------------------------------------------------------

  function Octet(c: char): Hash.Byte
  {
    c as int % 256
  }

  function Octets(s: string): CacheKey.Bytes
  {
    seq(|s|, k requires 0 <= k < |s| => Octet(s[k]))
  }

  function Dependencies(s: seq<(Path, Content)>): seq<CacheKey.Dependency>
  {
    seq(|s|, k requires 0 <= k < |s| => CacheKey.Dependency(Octets(s[k].0), Octets(s[k].1)))
  }

  /** What the code hashes. */
  function Stream(who: string, x: Command, s: seq<(Path, Content)>): CacheKey.Bytes
  {
    CacheKey.KeyStream(Octets(who), Octets(x), Dependencies(s))
  }

  /** One-byte characters, and no NUL. */
  ghost predicate PlainText(s: string)
  {
    forall k :: 0 <= k < |s| ==> 0 < s[k] as int < 256
  }

  lemma OctetsTell(a: string, b: string)
    requires PlainText(a) && PlainText(b) && Octets(a) == Octets(b)
    ensures a == b
  {
    assert |a| == |Octets(a)| == |Octets(b)| == |b|;
    forall k | 0 <= k < |a|
      ensures a[k] == b[k]
    {
      assert Octets(a)[k] == Octet(a[k]) && Octets(b)[k] == Octet(b[k]);
    }
  }

  lemma PlainOctets(s: string)
    requires PlainText(s)
    ensures 0 !in Octets(s)
  {
    forall k | 0 <= k < |Octets(s)|
      ensures Octets(s)[k] != 0
    {
      assert Octets(s)[k] == Octet(s[k]);
    }
  }

  ghost predicate PlainPairs(s: seq<(Path, Content)>)
  {
    forall k :: 0 <= k < |s| ==> PlainText(s[k].0) && PlainText(s[k].1)
  }

  lemma PlainPairsArePlain(s: seq<(Path, Content)>)
    requires PlainPairs(s)
    ensures CacheKey.PlainDependencies(Dependencies(s))
  {
    hide PlainText, Octets;
    forall k | 0 <= k < |s|
      ensures 0 !in Dependencies(s)[k].path && 0 !in Dependencies(s)[k].content
    {
      PlainOctets(s[k].0);
      PlainOctets(s[k].1);
    }
  }

  lemma DependenciesTell(s: seq<(Path, Content)>, s': seq<(Path, Content)>)
    requires PlainPairs(s) && PlainPairs(s') && Dependencies(s) == Dependencies(s')
    ensures s == s'
  {
    hide PlainText, Octets;
    assert |s| == |Dependencies(s)| == |Dependencies(s')| == |s'|;
    forall k | 0 <= k < |s|
      ensures s[k] == s'[k]
    {
      assert Dependencies(s)[k] == Dependencies(s')[k];
      OctetsTell(s[k].0, s'[k].0);
      OctetsTell(s[k].1, s'[k].1);
    }
  }

  /** The stream of plain texts says which they are. */
  lemma StreamTells(who: string, x: Command, s: seq<(Path, Content)>, who': string, x': Command,
                    s': seq<(Path, Content)>)
    requires PlainText(who) && PlainText(x) && PlainPairs(s)
    requires PlainText(who') && PlainText(x') && PlainPairs(s')
    requires Stream(who, x, s) == Stream(who', x', s')
    ensures who == who' && x == x' && s == s'
  {
    hide PlainText, PlainPairs, Octets, Dependencies, CacheKey.KeyStream;
    PlainOctets(who);
    PlainOctets(who');
    PlainOctets(x);
    PlainOctets(x');
    PlainPairsArePlain(s);
    PlainPairsArePlain(s');
    CacheKey.KeyStreamIsInjective(Octets(who), Octets(x), Dependencies(s), Octets(who'), Octets(x'), Dependencies(s'));
    OctetsTell(who, who');
    OctetsTell(x, x');
    DependenciesTell(s, s');
  }

  // ------------------------------------------------------------------------------------------
  // The keys of a history
  // ------------------------------------------------------------------------------------------

  /** Keys are made as the code makes them, with `h` in the place of its 64-bit hash. */
  ghost predicate KeyedByCode(t: Tools, h: CacheKey.Bytes -> nat)
  {
    forall who, x: Command, s :: t.key(who, x, s) == h(Stream(who, x, s))
  }

  /** Identities, commands, listed paths and contents of the history are plain. */
  ghost predicate PlainTools(t: Tools)
  {
    && (forall x: Command :: t.known(x) ==> PlainText(x) && (t.identity(x).Some? ==> PlainText(t.identity(x).value)))
    && (forall x: Command, c: Contents, p :: t.known(x) && p in t.deps(x, c) ==> PlainText(p))
    && (forall content :: t.occurs(content) ==> PlainText(content))
  }

  ghost predicate StreamIs(t: Tools, x: Command, record: seq<Path>, c: Contents, stream: CacheKey.Bytes)
  {
    && t.identity(x).Some? && Snapshot(record, c).Some?
    && stream == Stream(t.identity(x).value, x, Snapshot(record, c).value)
  }

  /** On the streams that the history stores and looks for, the hash does not collide. */
  ghost predicate Collisionless(t: Tools, h: CacheKey.Bytes -> nat)
  {
    forall x: Command, o, c: Contents, k, y: Command, q, record, d: Contents, k', a, b ::
      (Stores(t, x, o, c, k) && Finds(t, y, q, record, d, k') && StreamIs(t, x, t.deps(x, c), c, a) &&
       StreamIs(t, y, record, d, b) && h(a) == h(b)) ==> a == b
  }

  lemma SnapshotIsPlain(t: Tools, record: seq<Path>, c: Contents)
    requires PlainTools(t) && Occurring(t, c) && Snapshot(record, c).Some?
    requires forall p :: p in record ==> PlainText(p)
    ensures PlainPairs(Snapshot(record, c).value)
  {
    SnapshotTells(record, c);
    hide Snapshot, PlainText;
    forall k | 0 <= k < |record|
      ensures PlainText(record[k]) && PlainText(c[record[k]])
    {
      assert record[k] in record && t.occurs(c[record[k]]);
    }
  }

  lemma RecordIsPlain(t: Tools, q: Path, record: seq<Path>)
    requires PlainTools(t) && RecordFor(t, q, record)
    ensures forall p :: p in record ==> PlainText(p)
  {
    hide PlainText, Occurring;
    var z: Command, b: Contents :| Reports(t, z, q, b) && record == t.deps(z, b);
    assert t.known(z);
  }

  lemma StreamOf(t: Tools, h: CacheKey.Bytes -> nat, x: Command, record: seq<Path>, c: Contents, k: nat)
    returns (stream: CacheKey.Bytes)
    requires KeyedByCode(t, h) && KeyIs(t, x, record, c, k)
    ensures StreamIs(t, x, record, c, stream) && h(stream) == k
  {
    hide Snapshot, Stream;
    stream := Stream(t.identity(x).value, x, Snapshot(record, c).value);
  }

  lemma StreamsAreApart(t: Tools, x: Command, r: seq<Path>, c: Contents, y: Command, record: seq<Path>, d: Contents,
                        stream: CacheKey.Bytes)
    requires PlainTools(t) && t.known(x) && t.known(y) && Occurring(t, c) && Occurring(t, d)
    requires forall p :: p in r + record ==> PlainText(p)
    requires StreamIs(t, x, r, c, stream) && StreamIs(t, y, record, d, stream)
    ensures x == y && Snapshot(r, c) == Snapshot(record, d)
  {
    hide Snapshot, Stream, PlainText, Occurring;
    SnapshotIsPlain(t, r, c);
    SnapshotIsPlain(t, record, d);
    StreamTells(t.identity(x).value, x, Snapshot(r, c).value, t.identity(y).value, y, Snapshot(record, d).value);
  }

  /** So the keys of the code tell entries apart. */
  lemma CodeKeysTellApart(t: Tools, h: CacheKey.Bytes -> nat)
    requires PlainTools(t) && KeyedByCode(t, h) && Collisionless(t, h)
    ensures KeysTellApart(t)
  {
    hide Stores, Finds, PlainTools, KeyedByCode, Snapshot, StreamIs;
    forall x: Command, o, c: Contents, y: Command, q, record, d: Contents, k |
      Stores(t, x, o, c, k) && Finds(t, y, q, record, d, k)
      ensures x == y && Snapshot(t.deps(x, c), c) == Snapshot(record, d)
    {
      StoredParts(t, x, o, c, k);
      FoundParts(t, y, q, record, d, k);
      var a := StreamOf(t, h, x, t.deps(x, c), c, k);
      var b := StreamOf(t, h, y, record, d, k);
      assert a == b;
      StreamsAreApart(t, x, t.deps(x, c), c, y, record, d, a);
    }
  }

  lemma StoredParts(t: Tools, x: Command, o: Path, c: Contents, k: nat)
    requires PlainTools(t) && Stores(t, x, o, c, k)
    ensures t.known(x) && Occurring(t, c) && KeyIs(t, x, t.deps(x, c), c, k)
    ensures forall p :: p in t.deps(x, c) ==> PlainText(p)
  {
    hide PlainText, KeyIs, Occurring;
  }

  lemma FoundParts(t: Tools, y: Command, q: Path, record: seq<Path>, d: Contents, k: nat)
    requires PlainTools(t) && Finds(t, y, q, record, d, k)
    ensures t.known(y) && Occurring(t, d) && KeyIs(t, y, record, d, k)
    ensures forall p :: p in record ==> PlainText(p)
  {
    RecordIsPlain(t, q, record);
    hide PlainText, KeyIs, Occurring, RecordFor;
  }

  /** Every placeable command that uses the cache has a depfile that decides its output. */
  ghost predicate DepfilesDecide(t: Tools)
  {
    forall x: Command, o :: Placeable(t, x) && Cacheable(t, x, o) ==> HitsAreTrue(t, x, o)
  }

  /**
   With the keys of the code, plain texts, and no collision on what the history stores and looks for: what the runs of
   all histories report is true exactly when the depfiles of cached commands list all that decides their outputs.
   */
  lemma ReportsAreTrueIffDepfilesDecide(t: Tools, h: CacheKey.Bytes -> nat)
    requires Disciplined(t) && Printable(t) && PlainTools(t) && KeyedByCode(t, h) && Collisionless(t, h)
    ensures CommitsAreTrue(t) && NothingToBuildIsTrue(t) <==> DepfilesDecide(t)
  {
    CodeKeysTellApart(t, h);
    assert OwnTargets(t);
    hide Disciplined, Printable, PlainTools, KeyedByCode, Collisionless, KeysTellApart, NoStaleHits, CommitsAreTrue,
        NothingToBuildIsTrue, OwnTargets;
    NoStaleHitsIffDecided(t);
    ReportsAreTrueIffNoStaleHits(t);
  }
}
