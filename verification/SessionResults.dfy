/**
 What the two ends of `main` are worth. A process that says "nothing to build", and one whose scheduler succeeded, tell
 the truth about the files, in every directory that some history can lead to.
 */
module SessionResults {
  import opened Prelude
  import opened Graphs
  import opened World
  import opened CachedEdges
  import opened Builder
  import opened Execution
  import opened Incremental
  import opened LineFormat
  import opened History
  import opened HistoryInvariant
  import opened Session
  import HistoryResults
  import BuildLog
  import DepsLog

  /** What a process makes of a directory that can occur, can occur. */
  lemma WhatIsMadeOccurs(t: Tools, s: State, s': State)
    requires Occurs(t, s) && Proceeds(t, s, s')
    ensures Occurs(t, s')
  {
    hide Proceeds, Occurs;
    StayPut(t, s);
    ProceedsLeads(t, s, s, s');
    LedOnBySome(t, s, s');
  }

  lemma LedOnBySome(t: Tools, s: State, s': State)
    requires Occurs(t, s) && Leads(t, s, s')
    ensures Occurs(t, s')
  {
    hide Occurs, Evolves;
    var states, actions :| Trace(t, states, actions) && states[0] == s && states[|actions|] == s';
    LedOn(t, states, actions, s');
  }

  /** `Session.Start` with an empty plan: all edges that the targets need are consistent as they are. */
  lemma NothingToBuildIsTrue(t: Tools, dir: Dir, call: Call, now: int, made: Made)
    requires Disciplined(t) && HistoryInvariant.Printable(t) && NoStaleHits(t) && Occurs(t, State(dir, Idle))
    requires ValidWorld(call.w) && call.w.tools == t && call.jobs > 0 && dir.clock < now
    requires made.start == Memory(dir, now) && PlannedFor(call, made) && made.plan == []
    ensures AllConsistent(call.w, made.scope, ContentsOf(dir.files))
  {
    hide Disciplined, HistoryInvariant.Printable, NoStaleHits, ValidWorld, PlannedFor, Memory, AllConsistent;
    var dir' := dir.(clock := now);
    var loaded := State(dir', Loaded(call, made.start));
    assert PrepareStep(t, State(dir, Idle), Begin(call, now), loaded);
    hide Occurs;
    OneStepOn(t, State(dir, Idle), Begin(call, now), loaded);
    assert made == Made(made.start, made.scope, []);
    HistoryResults.NothingToBuildIsConsistent(t, loaded, made.scope, State(dir', Idle));
  }

  lemma OneStepOn(t: Tools, s: State, a: Action, s': State)
    requires Occurs(t, s) && OwnStep(t, s, a, s')
    ensures Occurs(t, s')
  {
    hide Occurs, OwnStep;
    StayPut(t, s);
    OneMoreOwn(t, s, s, a, s');
    WhatIsMadeOccurs(t, s, s');
  }

  /** `Session.Conclude` with both logs saved: all edges that the targets need are consistent now. */
  lemma SuccessIsTrue(t: Tools, dir: Dir, call: Call, made: Made, d: Disk, deps: string, log: string)
    requires Disciplined(t) && HistoryInvariant.Printable(t) && NoStaleHits(t)
    requires Occurs(t, State(dir, Executed(call, made, d)))
    requires DepsLog.IsTextOf(deps, d.deps) && BuildLog.IsTextOf(log, d.log)
    ensures AllConsistent(call.w, made.scope, ContentsOf(dir.files))
  {
    hide Disciplined, HistoryInvariant.Printable, NoStaleHits, AllConsistent, Occurs, DepsLog.IsTextOf,
        BuildLog.IsTextOf;
    var dir1 := dir.(depsLog := Text(deps), depsRun := dir.runs);
    OneStepOn(t, State(dir, Executed(call, made, d)), SaveDeps(deps), State(dir1, DepsSaved(call, made, d)));
    var dir2 := dir1.(buildLog := Text(log), logRun := dir1.runs);
    OneStepOn(t, State(dir1, DepsSaved(call, made, d)), SaveLog(log), State(dir2, LogSaved(call, made, d)));
    var dir3 := dir2.(marker := false, intact := true);
    HistoryResults.CommittedIsConsistent(t, State(dir2, LogSaved(call, made, d)), State(dir3, Idle));
  }
}
