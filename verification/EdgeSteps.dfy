/** What `execute_edge` does is what a worker's step in the scheduler does: the two models meet here. */
module EdgeSteps {
  import opened Prelude
  import opened Graphs
  import opened World
  import opened CachedEdges
  import opened SchedulerSteps
  import opened Executor

  /** Worker `i` runs edge `e`, whose job this is, and nothing has changed since it read its files. */
  ghost predicate AtWork(w: World, s: Sys, i: nat, e: EdgeId, job: Job)
  {
    && e < |w.command| && At(s, i) == Running(e, ContentsOf(s.disk.files))
    && JobOf(w.tools, w.command[e], job)
  }

  /** A hit, or a process that does what the tools say, is a success of the worker. */
  lemma OutcomeSucceeds(w: World, s: Sys, i: nat, e: EdgeId, job: Job, turn: Turn, d: Disk, ok: bool, hit: bool)
    requires AtWork(w, s, i, e, job) && s.disk.clock <= turn.now
    requires EdgeOutcome(w.tools, job, turn, s.disk, d, ok, hit)
    requires hit || Behaves(w.tools, w.command[e], ContentsOf(s.disk.files), turn.process)
    ensures ok && SucceedStep(w, s, i, turn.now, Move(s, i, Ran(e, true)).(disk := d))
  {
    if hit {
      HitIsStep(w.tools, job, turn, s.disk, d);
    } else {
      MissIsStep(w.tools, job, turn, s.disk, d, ok);
    }
    hide EdgeSucceeds, EdgeOutcome, Behaves, JobOf, ContentsOf;
  }

  /** A failure, of a process that changed nothing but the declared outputs, is a failure of the worker. */
  lemma OutcomeFails(w: World, s: Sys, i: nat, e: EdgeId, job: Job, turn: Turn, d: Disk, hit: bool)
    requires AtWork(w, s, i, e, job) && ClockAhead(s.disk) && s.disk.clock <= turn.now
    requires EdgeOutcome(w.tools, job, turn, s.disk, d, false, hit)
    requires turn.process.wrote.Keys <= w.tools.outputs(w.command[e]) && WritesOccurring(w.tools, turn.process)
    ensures FailStep(w, s, i, Move(s, i, Ran(e, false)).(disk := d))
  {
    FailureIsStep(w.tools, job, turn, s.disk, d, hit);
    hide FailEffect, EdgeOutcome, ClockAhead, ContentsOf;
  }
}
