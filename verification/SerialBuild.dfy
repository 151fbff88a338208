/**
 The serial executor over a topological order, and the parallel scheduler over the same plan, end with the same
 file contents.
 */
module SerialBuild {
  import opened Prelude
  import opened Graphs
  import opened World
  import opened CachedEdges
  import opened Execution
  import opened Executor

  /** The jobs of a list of edges. */
  ghost predicate JobsOf(w: World, order: seq<EdgeId>, jobs: seq<Job>)
  {
    |jobs| == |order| && forall k :: 0 <= k < |order| ==>
        order[k] < |w.command| && jobs[k].command == w.command[order[k]]
  }

  /** File contents move as `RunOne` says. */
  lemma ContentsOfRun(t: Tools, x: Command, now: int, d: Disk)
    ensures ContentsOf(RunEffect(t, x, ContentsOf(d.files), now, d).files) == RunOne(t, x, ContentsOf(d.files))
  {
    var c := ContentsOf(d.files);
    WrittenContents(t, x, c, now);
    hide WriteOutputs;
    SumOfContents(d.files, WriteOutputs(t, x, c, now));
    hide ContentsOf;
  }

  lemma SumOfContents(files: Files, more: Files)
    ensures ContentsOf(files + more) == ContentsOf(files) + ContentsOf(more)
  {
  }

  lemma WrittenContents(t: Tools, x: Command, c: Contents, now: int)
    ensures ContentsOf(WriteOutputs(t, x, c, now)) == map o | o in t.outputs(x) :: t.output(x, o, c)
  {
  }

  /** Every edge succeeded, by a hit or by a process that does what the tools say. */
  ghost predicate AllSucceed(t: Tools, jobs: seq<Job>, turns: seq<Turn>, states: seq<Disk>, hits: seq<bool>)
    requires |turns| == |jobs| == |hits| && |states| == |hits| + 1
  {
    forall k :: 0 <= k < |jobs| ==>
      && EdgeOutcome(t, jobs[k], turns[k], states[k], states[k + 1], true, hits[k])
      && Honest(t, Executed(jobs[k], turns[k], true, hits[k]), states[k])
  }

  /** With a genuine cache, `Executor::execute` ends with the files of the serial run of the model, hit or no hit. */
  lemma {:induction false} ExecuteIsSerialRun(w: World, order: seq<EdgeId>, jobs: seq<Job>, turns: seq<Turn>,
      states: seq<Disk>, hits: seq<bool>, k: nat)
    requires JobsOf(w, order, jobs) && |turns| == |jobs| == |hits| && |states| == |hits| + 1 && k <= |order|
    requires AllSucceed(w.tools, jobs, turns, states, hits) && Traceable(w.tools, states[0])
    requires Disciplined(w.tools) && NoStaleHits(w.tools)
    ensures Traceable(w.tools, states[k])
    ensures ContentsOf(states[k].files) == SerialRun(w, order[..k], ContentsOf(states[0].files))
    decreases k
  {
    hide RunEffect, RunOne, ContentsOf, Traceable, EdgeOutcome, Honest, PlainEffect, Disciplined, NoStaleHits;
    if k > 0 {
      ExecuteIsSerialRun(w, order, jobs, turns, states, hits, k - 1);
      var event := Executed(jobs[k - 1], turns[k - 1], true, hits[k - 1]);
      assert Happens(w.tools, event, states[k - 1], states[k]);
      EventIsPlain(w.tools, event, states[k - 1], states[k]);
      PlainContents(w.tools, jobs[k - 1], turns[k - 1], hits[k - 1], states[k - 1], states[k]);
      assert order[..k][..k - 1] == order[..k - 1];
    }
  }

  lemma PlainContents(t: Tools, job: Job, turn: Turn, hit: bool, d: Disk, d': Disk)
    requires PlainEffect(t, Executed(job, turn, true, hit), d, d')
    ensures ContentsOf(d'.files) == RunOne(t, job.command, ContentsOf(d.files))
  {
    ContentsOfRun(t, job.command, turn.now, d);
    hide RunOne, ContentsOf, RunEffect, Backed, NoStaleLists;
  }
}
