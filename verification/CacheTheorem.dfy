/**
 When builds can be trusted: what the runs of all histories report is true exactly when no command that uses the cache
 can get a stale hit. Nothing is asked of the two hashes.
 */
module CacheTheorem {
  import opened Prelude
  import opened Graphs
  import opened World
  import opened CachedEdges
  import opened Execution
  import opened History
  import opened HistoryInvariant
  import opened HistoryResults
  import opened StaleHistory

  /** Every commit of every history leaves all edges of its scope with the outputs that their commands would write. */
  ghost predicate CommitsAreTrue(t: Tools)
  {
    forall s: State, s': State :: Occurs(t, s) && CommitStep(s, Commit, s') ==>
      AllConsistent(s.phase.call.w, s.phase.made.scope, ContentsOf(s'.dir.files))
  }

  /** And every "nothing to build" is said where this is so already. */
  ghost predicate NothingToBuildIsTrue(t: Tools)
  {
    forall s: State, scope, s': State :: Occurs(t, s) && PrepareStep(t, s, NothingToBuild(scope), s') ==>
      AllConsistent(s.phase.call.w, scope, ContentsOf(s'.dir.files))
  }

  /** One stale hit is enough for a wrong commit. */
  lemma StaleHitBreaksACommit(t: Tools, x: Command, o: Path, c: Contents, y: Command, q: Path, record: seq<Path>,
                              d: Contents, k: nat)
    requires Disciplined(t) && Printable(t) && Stores(t, x, o, c, k) && Finds(t, y, q, record, d, k)
    requires t.output(y, q, d) != t.output(x, o, c)
    ensures !CommitsAreTrue(t)
  {
    hide Disciplined, Printable, Stores, Finds;
    StaleHitIsCommitted(t, x, o, c, y, q, record, d, k);
    var s: State, s': State :| Occurs(t, s) && CommitsStale(t, y, t.inputs(y) <= d.Keys, s, s');
    hide Occurs, AllConsistent;
    assert !AllConsistent(s.phase.call.w, s.phase.made.scope, ContentsOf(s'.dir.files));
  }

  lemma SafeReportsAreTrue(t: Tools)
    requires Disciplined(t) && Printable(t) && NoStaleHits(t)
    ensures CommitsAreTrue(t) && NothingToBuildIsTrue(t)
  {
    hide Disciplined, Printable, NoStaleHits, Occurs, AllConsistent, CommitStep, PrepareStep;
    forall s: State, s': State | Occurs(t, s) && CommitStep(s, Commit, s')
      ensures s.phase.LogSaved? && AllConsistent(s.phase.call.w, s.phase.made.scope, ContentsOf(s'.dir.files))
    {
      CommittedIsConsistent(t, s, s');
      CommitsAreSaved(s, s');
    }
    forall s: State, scope, s': State | Occurs(t, s) && PrepareStep(t, s, NothingToBuild(scope), s')
      ensures s.phase.Loaded? && AllConsistent(s.phase.call.w, scope, ContentsOf(s'.dir.files))
    {
      NothingToBuildIsConsistent(t, s, scope, s');
      NothingIsLoaded(t, s, scope, s');
    }
  }

  lemma CommitsAreSaved(s: State, s': State)
    requires CommitStep(s, Commit, s')
    ensures s.phase.LogSaved?
  {
  }

  lemma NothingIsLoaded(t: Tools, s: State, scope: set<EdgeId>, s': State)
    requires PrepareStep(t, s, NothingToBuild(scope), s')
    ensures s.phase.Loaded?
  {
  }

  /**
   For well-behaved commands, and whatever the keys and hashes of the cache are: every commit and every "nothing to
   build" of every history, with whatever edits, failures, crashes, lost logs and damaged caches in it, is right,
   exactly when no command can get a stale hit.
   */
  lemma ReportsAreTrueIffNoStaleHits(t: Tools)
    requires Disciplined(t) && Printable(t)
    ensures CommitsAreTrue(t) && NothingToBuildIsTrue(t) <==> NoStaleHits(t)
  {
    hide Disciplined, Printable, CommitsAreTrue, NothingToBuildIsTrue, Stores, Finds;
    if NoStaleHits(t) {
      hide NoStaleHits;
      SafeReportsAreTrue(t);
    } else {
      var x: Command, o, c: Contents, y: Command, q, record, d: Contents, k :|
        Stores(t, x, o, c, k) && Finds(t, y, q, record, d, k) && t.output(y, q, d) != t.output(x, o, c);
      StaleHitBreaksACommit(t, x, o, c, y, q, record, d, k);
    }
  }
}
