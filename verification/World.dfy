/**
 What the builder can rely on about the outside world: files with contents and modification times, and
 commands as functions of the files they read. Commands are known by their expanded text, because that text
 is all that the build log remembers about them.
 */
module World {
  import opened Prelude
  import opened Graphs
  import opened Cache

  type Command = string
  type Content = string
  type Contents = map<Path, Content>

  datatype File = File(content: Content, mtime: int)

  type Files = map<Path, File>

  function ContentsOf(files: Files): Contents
  {
    map p | p in files :: files[p].content
  }

  /**
   The commands and contents of a history. `known` are the commands of its manifests, `occurs` what files hold in it.
   `inputs`, `outputs` and `depTarget` are what a manifest declares beside the command text; `sees`, `output` and `deps`
   are what running the command does. The rest is what the cache knows them by: the identity of the compiler, if it can
   be told, and the two hashes. Nothing is assumed about these.
   */
  datatype Tools = Tools(
    known: Command -> bool,
    occurs: Content -> bool,
    inputs: Command -> set<Path>,
    outputs: Command -> set<Path>,
    depTarget: Command -> Option<Path>,
    sees: (Command, Contents) -> set<Path>,
    output: (Command, Path, Contents) -> Content,
    deps: (Command, Contents) -> seq<Path>,
    hash: Command -> nat,
    identity: Command -> Option<string>,
    key: (string, Command, seq<(Path, Content)>) -> nat,
    contentHash: Content -> nat)

  /** The two states show the same file, or the same absence, at `p`. */
  ghost predicate SameThere(c: Contents, d: Contents, p: Path)
  {
    (p in c <==> p in d) && (p in c ==> c[p] == d[p])
  }

  /** They do so at every path of `paths`. */
  ghost predicate Agree(c: Contents, d: Contents, paths: set<Path>)
  {
    forall p :: p in paths ==> (p in c <==> p in d) && (p in c ==> c[p] == d[p])
  }

  /** What a command does depends only on the files it reads. */
  ghost predicate Deterministic(t: Tools)
  {
    forall x: Command, c: Contents, d: Contents :: Agree(c, d, t.sees(x, c)) ==> SameRun(t, x, c, d)
  }

  ghost predicate SameRun(t: Tools, x: Command, c: Contents, d: Contents)
  {
    && t.sees(x, c) == t.sees(x, d)
    && t.deps(x, c) == t.deps(x, d)
    && forall o :: t.output(x, o, c) == t.output(x, o, d)
  }

  /** The paths a depfile adds to the declared inputs. */
  function Discovered(t: Tools, x: Command, c: Contents): set<Path>
  {
    if t.depTarget(x).Some? then Elems(t.deps(x, c)) else {}
  }

  /** Everything a command reads is a declared input or is listed in its depfile. */
  ghost predicate Reported(t: Tools)
  {
    forall x: Command, c: Contents :: t.sees(x, c) <= t.inputs(x) + Discovered(t, x, c)
  }

  /** A depfile's target is one of its own edge's outputs. */
  ghost predicate OwnTargets(t: Tools)
  {
    forall x: Command :: t.depTarget(x).Some? ==> t.depTarget(x).value in t.outputs(x)
  }

  /** No two commands of the history share a hash. */
  ghost predicate CollisionFree(t: Tools)
  {
    forall x: Command, y: Command :: t.known(x) && t.known(y) && t.hash(x) == t.hash(y) ==> x == y
  }

  /** Every file holds something that occurs in the history. */
  ghost predicate Occurring(t: Tools, c: Contents)
  {
    forall p :: p in c ==> t.occurs(c[p])
  }

  /** What commands of the history write occurs in it. */
  ghost predicate OutputsOccur(t: Tools)
  {
    forall x: Command, o, c: Contents ::
      t.known(x) && o in t.outputs(x) && Occurring(t, c) ==> t.occurs(t.output(x, o, c))
  }

  ghost predicate Disciplined(t: Tools)
  {
    Deterministic(t) && Reported(t) && OwnTargets(t) && CollisionFree(t) && OutputsOccur(t)
  }

  /** One manifest: its graph and the expanded command of every edge. */
  datatype World = World(g: Graph, command: seq<Command>, tools: Tools)

  /** The command text of an edge determines what the manifest declares about it. */
  ghost predicate Declared(w: World)
  {
    && |w.command| == |w.g.edges|
    && forall e: EdgeId :: IsEdge(w.g, e) ==>
         && w.tools.known(w.command[e])
         && Elems(w.g.edges[e].inputs) == w.tools.inputs(w.command[e])
         && Elems(w.g.edges[e].outputs) == w.tools.outputs(w.command[e])
         && w.g.edges[e].outputs != []
  }

  /** A generated file in a depfile comes from an edge that the manifest orders before the reader. */
  ghost predicate Ordered(w: World)
    requires Declared(w)
  {
    forall e: EdgeId, c: Contents, p ::
      (IsEdge(w.g, e) && p in Discovered(w.tools, w.command[e], c) && ProducerOf(w.g, p).Some?) ==>
      Ancestor(w.g, ProducerOf(w.g, p).value, e)
  }

  ghost predicate ValidWorld(w: World)
  {
    && Valid(w.g) && Acyclic(w.g, AllEdges(w.g))
    && Disciplined(w.tools) && Declared(w) && Ordered(w)
  }

  /** What the build directory holds: files, the two logs of the running process, the clock, and the cache. */
  datatype Disk = Disk(files: Files, log: map<Path, nat>, deps: map<Path, seq<Path>>, clock: int, cache: Cache)

  /** No file is stamped later than now. */
  ghost predicate ClockAhead(d: Disk)
  {
    forall p :: p in d.files ==> d.files[p].mtime <= d.clock
  }

  function WriteOutputs(t: Tools, x: Command, c: Contents, now: int): Files
  {
    map o | o in t.outputs(x) :: File(t.output(x, o, c), now)
  }

  /** What command `x` leaves when it runs, saw the files `c`, and writes at time `now`. */
  function RunEffect(t: Tools, x: Command, c: Contents, now: int, d: Disk): Disk
  {
    Disk(d.files + WriteOutputs(t, x, c, now),
         d.log + (map o | o in t.outputs(x) :: t.hash(x)),
         if t.depTarget(x).Some? then d.deps[t.depTarget(x).value := t.deps(x, c)] else d.deps,
         now,
         d.cache)
  }

  /** A failed command may have left anything in its outputs; the logs are not touched, and nothing is stored. */
  ghost predicate FailEffect(t: Tools, x: Command, d: Disk, d': Disk)
  {
    && d'.log == d.log && d'.deps == d.deps && d.clock <= d'.clock
    && (forall p :: p !in t.outputs(x) ==> SameFile(d.files, d'.files, p))
    && (Occurring(t, ContentsOf(d.files)) ==> Occurring(t, ContentsOf(d'.files)))
    && ClockAhead(d') && Pruned(t.contentHash, d.cache, d'.cache)
  }

  ghost predicate SameFile(f: Files, f': Files, p: Path)
  {
    (p in f <==> p in f') && (p in f ==> f[p] == f'[p])
  }

  /** Every output of `x` holds what `x` would write if it ran now. */
  ghost predicate Consistent(t: Tools, x: Command, c: Contents)
  {
    forall o :: o in t.outputs(x) ==> o in c && c[o] == t.output(x, o, c)
  }

  ghost function OutputsOf(w: World, S: set<EdgeId>): set<Path>
  {
    set e, p | e in S && IsEdge(w.g, e) && p in w.g.edges[e].outputs :: p
  }

  lemma OutputsOfOneMore(w: World, S: set<EdgeId>, e: EdgeId)
    requires IsEdge(w.g, e)
    ensures OutputsOf(w, S + {e}) == OutputsOf(w, S) + Elems(w.g.edges[e].outputs)
  {
  }

  /** What a command reads on some state of the files. */
  ghost predicate MaySee(t: Tools, x: Command, p: Path)
  {
    exists c: Contents :: p in t.sees(x, c)
  }

  /** The two states show the same to command `x`, whatever it makes of it. */
  ghost predicate Alike(t: Tools, x: Command, c: Contents, d: Contents)
  {
    forall p :: MaySee(t, x, p) ==> SameThere(c, d, p)
  }

  /** So it does the same on both. */
  lemma AlikeRunsAlike(t: Tools, x: Command, c: Contents, d: Contents)
    requires Deterministic(t) && Alike(t, x, c, d)
    ensures Agree(c, d, t.sees(x, c)) && SameRun(t, x, c, d)
  {
    hide SameRun;
    forall p | p in t.sees(x, c)
      ensures SameThere(c, d, p)
    {
      assert MaySee(t, x, p);
    }
  }

  /** Everything an edge may read or list comes from a source file or from an ancestor. */
  lemma ReadsAreOrdered(w: World, e: EdgeId, c: Contents, p: Path)
    requires ValidWorld(w) && IsEdge(w.g, e)
    requires p in w.tools.sees(w.command[e], c) + Discovered(w.tools, w.command[e], c) && ProducerOf(w.g, p).Some?
    ensures Ancestor(w.g, ProducerOf(w.g, p).value, e)
  {
    var f := ProducerOf(w.g, p).value;
    if p !in Discovered(w.tools, w.command[e], c) {
      assert p in Elems(w.g.edges[e].inputs);
      ProducersIn(w.g, e, f);
    }
  }

  /** Consistency of a command depends only on its outputs and on what it reads. */
  lemma ConsistentTransfers(t: Tools, x: Command, c: Contents, d: Contents)
    requires Deterministic(t) && Consistent(t, x, c)
    requires Agree(c, d, t.sees(x, c) + t.outputs(x))
    ensures Consistent(t, x, d)
  {
    assert Agree(c, d, t.sees(x, c));
    assert SameRun(t, x, c, d);
  }
}
