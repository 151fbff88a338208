/**
 A concrete record that outlives its rule. The first rule for `o` has a depfile that names `gone.h`; the second has
 none. After the header is deleted, the second rule's edge stays stale however often it is built.
 */
module LeftoverHistory {
  import opened Prelude
  import opened Graphs
  import opened Cache
  import opened World
  import opened CachedEdges
  import opened Incremental
  import opened History
  import opened HistoryInvariant
  import opened Session
  import opened OneEdgeHistory
  import BuildLog
  import DepsLog

  const BEFORE: Command := "cc -MD"
  const AFTER: Command := "cc"
  const HEADER: Path := "gone.h"

  /** Both compile `i` into `o`; the first also reads the header, and says so. */
  function TwoRules(): Tools
  {
    Tools(x => x == BEFORE || x == AFTER, content => true, x => {"i"}, x => {"o"},
          x => if x == BEFORE then Some("o") else None,
          (x, c) => if x == BEFORE then {"i", HEADER} else {"i"},
          (x, o, c) => if "i" in c then c["i"] else "", (x, c) => [HEADER],
          x => if x == BEFORE then 1 else 2, x => None, (who, x, s) => 0, content => 0)
  }

  lemma RulesAreDisciplined()
    ensures Disciplined(TwoRules()) && Printable(TwoRules())
    ensures Placeable(TwoRules(), BEFORE) && Placeable(TwoRules(), AFTER)
  {
    var t := TwoRules();
    assert Elems([HEADER]) == {HEADER};
    forall x: Command, c: Contents, d: Contents | Agree(c, d, t.sees(x, c))
      ensures SameRun(t, x, c, d)
    {
      assert "i" in t.sees(x, c);
    }
    assert DepsLog.CleanName(HEADER);
  }

  function Sourced(): Contents
  {
    map["i" := "x", HEADER := ""]
  }

  function Start(): Disk
  {
    Disk(Sources(Sourced()), map[], map[], 1, NO_CACHE)
  }

  function FirstRan(): Disk
  {
    RunEffect(TwoRules(), BEFORE, Sourced(), 1, Start())
  }

  lemma FirstRecord()
    ensures FirstRan().deps == map["o" := [HEADER]] && FirstRan().clock == 1
  {
    hide WriteOutputs;
  }

  lemma FirstEntry()
    ensures FirstRan().log == map["o" := 1]
  {
    hide WriteOutputs;
    assert (map o | o in TwoRules().outputs(BEFORE) :: TwoRules().hash(BEFORE)) == map["o" := 1];
  }

  lemma NothingYet()
    ensures !Calm(TwoRules(), BEFORE, Start()) && Writable(Start())
  {
    NothingLogged(TwoRules(), BEFORE, Start());
    hide Calm;
  }

  /** The first run, over the manifest with the depfile. */
  lemma FirstRun() returns (w: World)
    ensures w.tools == TwoRules() && Writable(FirstRan())
    ensures Leads(TwoRules(), State(NewDir(Sourced()), Idle),
                  State(Left(w, BEFORE, NewDir(Sourced()), FirstRan()), Idle))
  {
    var t, c, s0 := TwoRules(), Sourced(), State(NewDir(Sourced()), Idle);
    hide *;
    RulesAreDisciplined();
    AllOccurs(c);
    NewDirIsPristine(t, c);
    NothingYet();
    w := OneEdgeWorld(t, BEFORE);
    FirstSucceeds();
    StayPut(t, s0);
    StartIsLoaded();
    OneRun(w, BEFORE, s0, NewDir(c), Start(), FirstRan());
    OneRunCommits(w, BEFORE, s0, NewDir(c), Start(), FirstRan());
    FirstIsWritable();
  }

  lemma FirstSucceeds()
    ensures EdgeSucceeds(TwoRules(), BEFORE, Sourced(), 1, Start(), FirstRan())
  {
    NothingCached(BEFORE, Sourced(), 1, Start());
    hide TwoRules, Sourced, Start, RunEffect, EdgeSucceeds;
  }

  /** The compiler cannot be told, so nothing is stored. */
  lemma NothingCached(x: Command, seen: Contents, now: int, d: Disk)
    ensures EdgeSucceeds(TwoRules(), x, seen, now, d, RunEffect(TwoRules(), x, seen, now, d))
  {
    var ran := RunEffect(TwoRules(), x, seen, now, d);
    assert forall o :: !Cacheable(TwoRules(), x, o);
    hide TwoRules, RunEffect, Cacheable, KeyIs, Hits;
    assert Runs(TwoRules(), x, seen, now, d, ran, d.cache);
  }

  lemma AllOccurs(c: Contents)
    ensures Occurring(TwoRules(), c)
  {
  }

  lemma StartIsLoaded()
    ensures Start() == Memory(NewDir(Sourced()), Start().clock) && NewDir(Sourced()).clock < Start().clock
    ensures Start().clock == 1 && ContentsOf(Start().files) == Sourced()
    ensures FirstRan() == RunEffect(TwoRules(), BEFORE, Sourced(), 1, Start())
  {
    AllOccurs(Sourced());
    NewDirIsPristine(TwoRules(), Sourced());
    hide Sourced, TwoRules, Memory, Occurring, RunEffect;
  }

  lemma FirstIsWritable()
    ensures Writable(FirstRan())
  {
    RulesAreDisciplined();
    NothingYet();
    assert TwoRules().known(BEFORE) && OwnTargets(TwoRules());
    hide TwoRules, Disciplined, Printable, Writable, RunEffect, OwnTargets, Sourced;
    RunIsWritable(TwoRules(), BEFORE, Sourced(), 1, Start());
  }

  /** Then the header is deleted. */
  lemma RecordIsLeft() returns (dir: Dir, d: Disk)
    ensures Leads(TwoRules(), State(NewDir(Sourced()), Idle), State(dir, Idle))
    ensures dir.clock == d.clock && Memory(dir, d.clock + 1) == d.(clock := d.clock + 1) && Writable(d)
    ensures d.deps == map["o" := [HEADER]] && HEADER !in d.files && d.log == map["o" := 1]
  {
    var s0 := State(NewDir(Sourced()), Idle);
    hide TwoRules, Sourced, FirstRan, Leads, Writable, Left, Memory, NewDir, Calm, Start;
    FirstRecord();
    FirstEntry();
    var w := FirstRun();
    dir := Removed(TwoRules(), s0, Left(w, BEFORE, NewDir(Sourced()), FirstRan()), HEADER);
    d := FirstRan().(files := FirstRan().files - {HEADER});
    LoadedWithout(w, BEFORE, NewDir(Sourced()), FirstRan(), HEADER, dir);
    StillWritable(FirstRan(), d);
  }

  lemma LoadedWithout(w: World, x: Command, before: Dir, ran: Disk, p: Path, dir: Dir)
    requires Writable(ran) && dir == Left(w, x, before, ran).(files := Left(w, x, before, ran).files - {p})
    ensures Memory(dir, ran.clock + 1) == ran.(files := ran.files - {p}, clock := ran.clock + 1)
    ensures dir.clock == ran.clock
  {
    LeftIsLoaded(w, x, before, ran, ran.clock + 1);
    var left := Left(w, x, before, ran);
    assert left.files == ran.files;
    hide Writable, Left, BuildLog.Parse, DepsLog.Parse;
  }

  lemma StillWritable(d: Disk, d': Disk)
    requires Writable(d) && d'.log == d.log && d'.deps == d.deps
    ensures Writable(d')
  {
  }

  /** The record of the output names the header, which is gone. */
  lemma StillLeftOver(d: Disk)
    requires "o" in d.deps && d.deps["o"] == [HEADER] && HEADER !in d.files
    ensures !Calm(TwoRules(), AFTER, d)
  {
    assert [HEADER][0] == HEADER;
    assert HEADER in Watched(TwoRules(), AFTER, d.deps, "o");
    assert !CalmOutput(TwoRules(), AFTER, d, "o");
  }

  /** However often it is run, it leaves the record. */
  lemma RunningAgainDoesNotHelp(seen: Contents, now: int, d: Disk)
    requires "o" in d.deps && d.deps["o"] == [HEADER] && HEADER !in d.files
    ensures var d' := RunEffect(TwoRules(), AFTER, seen, now, d);
      d'.deps == d.deps && HEADER !in d'.files && !Calm(TwoRules(), AFTER, d')
  {
    StillLeftOver(RunEffect(TwoRules(), AFTER, seen, now, d));
  }

  /** A commit that leaves the only edge of its manifest stale. */
  ghost predicate CommitsAgitated(t: Tools, x: Command, s: State, s': State)
  {
    && CommitStep(s, Commit, s') && s.phase.call.w.tools == t && s.phase.call.w.command == [x]
    && forall now :: !Calm(t, x, Memory(s'.dir, now))
  }

  /** Some history commits a successful build of the second rule after which its edge is stale at once. */
  lemma LeftoverIsCommitted()
    ensures exists s: State, s': State :: Occurs(TwoRules(), s) && CommitsAgitated(TwoRules(), AFTER, s, s')
  {
    var t, s0 := TwoRules(), State(NewDir(Sourced()), Idle);
    RulesAreDisciplined();
    NewDirIsPristine(t, Sourced());
    var dir, d := RecordIsLeft();
    var start := d.(clock := d.clock + 1);
    StillLeftOver(start);
    var w := OneEdgeWorld(t, AFTER);
    var seen := ContentsOf(start.files);
    var ran := RunEffect(t, AFTER, seen, start.clock, start);
    NothingCached(AFTER, seen, start.clock, start);
    StillWritable(d, start);
    RunIsWritable(t, AFTER, seen, start.clock, start);
    RunningAgainDoesNotHelp(seen, start.clock, start);
    hide TwoRules, Disciplined, Printable, Placeable, OneEdge, EdgeSucceeds, Calm, Writable, RunEffect, Memory, Saved,
        Left, Leads, Pristine, ContentsOf, CommitsAgitated, Sourced;
    OneRun(w, AFTER, s0, dir, start, ran);
    LeadsIsOccurring(t, s0, Saved(w, AFTER, dir, start, ran));
    AgitatedFromParts(w, dir, start, ran);
  }

  lemma AgitatedFromParts(w: World, dir: Dir, start: Disk, d: Disk)
    requires OneEdge(w, AFTER) && w.tools == TwoRules() && Writable(d)
    requires "o" in d.deps && d.deps["o"] == [HEADER] && HEADER !in d.files
    ensures CommitsAgitated(TwoRules(), AFTER, Saved(w, AFTER, dir, start, d), State(Left(w, AFTER, dir, d), Idle))
  {
    assert w.command == [AFTER];
    SavedCommits(w, AFTER, dir, start, d);
    hide TwoRules, OneEdge, Calm, Writable, Memory, Left, CommitStep, LogText, DepsText, OneAuthor;
    forall now
      ensures !Calm(TwoRules(), AFTER, Memory(Left(w, AFTER, dir, d), now))
    {
      LeftIsLoaded(w, AFTER, dir, d, now);
      StillLeftOver(d.(clock := now));
    }
  }
}
