/** Without eviction after use, recorded does not mean resident: a run in which a component executes
    although its first chunk was only found recorded, and its second chunk was recorded without being
    moved; and exactly which setting of the option excludes such runs. */
module CacheSkipping {
  import opened EventTypes
  import opened PagedMemory
  import opened CacheMachine
  import opened CacheProofs
  import opened CacheTheorems
  import opened CacheResidency
  import opened CacheRuns

  /** One CPU, two ways, a component of two chunks and one of one chunk, each chunk of one page. */
  const PAIR := Config([[Chunk(2, 1), Chunk(3, 1)], [Chunk(4, 1)]], [[0], [1]], false)
  const FIRST := ChunkId(0, 0)
  const SECOND := ChunkId(0, 1)
  const OTHER := ChunkId(1, 0)

  lemma {:induction false} PairIsWellFormed()
    ensures WellFormed(PAIR, 5, 5)
  {
    assert forall id: ChunkId :: IsChunk(PAIR, id) ==> id == FIRST || id == SECOND || id == OTHER;
  }

  lemma {:induction false} PairStarts() returns (run: seq<State>)
    ensures IsRun(PAIR, run) && AtRest(Last(run))
    ensures forall w :: 0 <= w < 2 ==> Last(run).ways[w].record == None
  {
    PairIsWellFormed();
    var way := Way(None, false, false, None, 0, FIRST);
    run := [State(Memory([0, 1, 2, 3, 4], [[], [], [], [], []]), [[], [], [], [], []], [way, way], [Idle], [[]],
                  [None, None, None, None, None], map[], [{}])];
  }

  /** Nothing runs, no way is in use. */
  ghost predicate AtRest(s: State)
  {
    && s.phase == [Idle] && s.held == [[]] && |s.found| == 1 && |s.ways| == 2
    && forall w :: 0 <= w < 2 ==> Eligible(s.ways[w])
  }

  ghost predicate Records(s: State, first: ChunkId, second: ChunkId)
  {
    |s.ways| == 2 && s.ways[0].record == Some(first) && s.ways[1].record == Some(second)
  }

  /** The two-chunk component is loaded into both ways, executes and is evicted. */
  lemma {:induction false} FirstActivation(start: seq<State>) returns (run: seq<State>)
    requires IsRun(PAIR, start) && AtRest(Last(start)) && forall w :: 0 <= w < 2 ==> Last(start).ways[w].record == None
    ensures IsRun(PAIR, run) && AtRest(Last(run)) && Records(Last(run), FIRST, SECOND)
  {
    run := BeginTask(PAIR, start, 0, [0]);
    run := LoadByMiss(PAIR, run, 0, 0);
    run := LoadByMiss(PAIR, run, 0, 1);
    assert Records(Last(run), FIRST, SECOND);
    run := StartExecution(PAIR, run, 0);
    var before := Last(run);
    run := EvictTask(PAIR, run, 0);
    assert WayEvicted(PAIR, before.ways[0], Last(run).ways[0], [0]) && WayEvicted(PAIR, before.ways[1], Last(run).ways[1], [0]);
  }

  /** The other component takes the way that records the second chunk. */
  lemma {:induction false} OtherActivation(start: seq<State>) returns (run: seq<State>)
    requires IsRun(PAIR, start) && AtRest(Last(start)) && Records(Last(start), FIRST, SECOND)
    ensures IsRun(PAIR, run) && AtRest(Last(run)) && Records(Last(run), FIRST, OTHER)
  {
    run := BeginTask(PAIR, start, 0, [1]);
    run := LoadByMiss(PAIR, run, 0, 1);
    assert Records(Last(run), FIRST, OTHER);
    run := StartExecution(PAIR, run, 0);
    var before := Last(run);
    run := EvictTask(PAIR, run, 0);
    assert WayEvicted(PAIR, before.ways[0], Last(run).ways[0], [1]) && WayEvicted(PAIR, before.ways[1], Last(run).ways[1], [1]);
  }

  /** The two-chunk component again: its first chunk is found recorded, its second is not, and gets a way. */
  lemma {:induction false} SecondActivation(start: seq<State>) returns (run: seq<State>)
    requires IsRun(PAIR, start) && AtRest(Last(start)) && Records(Last(start), FIRST, OTHER)
    ensures IsRun(PAIR, run) && Records(Last(run), FIRST, SECOND)
    ensures Last(run).phase == [Executing] && Last(run).held == [[0]] && Last(run).found == [{FIRST}]
    ensures forall w :: 0 <= w < 2 ==> !Last(run).ways[w].locked
  {
    run := BeginTask(PAIR, start, 0, [0]);
    assert {} + {FIRST} == {FIRST};
    run := LoadByHit(PAIR, run, 0, 0);
    assert Last(run).found == [{FIRST}];
    run := LoadByMiss(PAIR, run, 0, 1);
    run := StartExecution(PAIR, run, 0);
  }

  /** At the end of this run both chunks of the executing component are recorded, the second one after
      getLRUWay had not found it, and both pages are in their own frames. */
  lemma {:induction false} RecordedNotMoved() returns (run: seq<State>)
    ensures IsRun(PAIR, run) && Records(Last(run), FIRST, SECOND) && !PAIR.evictAfterUse
    ensures Last(run).phase == [Executing] && Last(run).held == [[0]] && Last(run).found == [{FIRST}]
    ensures |Last(run).mem.frameOf| >= 5 && Last(run).mem.frameOf[2] == 2 && Last(run).mem.frameOf[3] == 3
  {
    run := PairStarts();
    run := FirstActivation(run);
    run := OtherActivation(run);
    run := SecondActivation(run);
    BothSkipped(run);
  }

  lemma {:induction false} BothSkipped(run: seq<State>)
    requires IsRun(PAIR, run) && Last(run).phase == [Executing] && Last(run).held == [[0]] && Last(run).found == [{FIRST}]
    requires |Last(run).ways| == 2 && forall w :: 0 <= w < 2 ==> !Last(run).ways[w].locked
    ensures |Last(run).mem.frameOf| >= 5 && Last(run).mem.frameOf[2] == 2 && Last(run).mem.frameOf[3] == 3
  {
    var k := |run| - 1;
    assert ChunkId(0, 0) in run[k].found[0];
    assert InChunk(PAIR, FIRST, 2) && InChunk(PAIR, SECOND, 3) && InChunk(PAIR, OTHER, 4);
    SkippedStaysHome(PAIR, run, k, 0, FIRST, 2);
    SkippedStaysHome(PAIR, run, k, 0, SECOND, 3);
    RunIsGood(PAIR, run, k);
  }

  // ----- exactly when -----

  /** The page is at its place in the frames of some way. */
  ghost predicate InSomeWay(cfg: Config, s: State, id: ChunkId, v: nat)
    requires InChunk(cfg, id, v) && v < |s.mem.frameOf|
  {
    exists w :: 0 <= w < |cfg.placement| && InPlace(cfg, s, id, w, v)
  }

  /** All pages of executing components are in ways. */
  ghost predicate ExecutesInPlace(cfg: Config, s: State)
  {
    |s.held| == |s.phase| &&
    forall c, id: ChunkId, v: nat ::
      0 <= c < |s.phase| && s.phase[c].Executing? && id.osc in s.held[c] && InChunk(cfg, id, v) ==>
        v < |s.mem.frameOf| && InSomeWay(cfg, s, id, v)
  }

  /** Components execute from their ways on every run of every configuration with the given setting of
      the option, exactly if that setting is on. */
  lemma {:induction false} ResidentExactlyWhen(evictAfterUse: bool)
    ensures (forall cfg: Config, run: seq<State> ::
               cfg.evictAfterUse == evictAfterUse && IsRun(cfg, run) ==> ExecutesInPlace(cfg, Last(run)))
        <==> evictAfterUse
  {
    if evictAfterUse {
      forall cfg: Config, run: seq<State> | cfg.evictAfterUse && IsRun(cfg, run) ensures ExecutesInPlace(cfg, Last(run)) {
        AllInPlace(cfg, run);
      }
    } else {
      var run := RecordedNotMoved();
      assert InChunk(PAIR, FIRST, 2) && FIRST.osc in Last(run).held[0];
      assert !InSomeWay(PAIR, Last(run), FIRST, 2);
    }
  }

  lemma {:induction false} AllInPlace(cfg: Config, run: seq<State>)
    requires cfg.evictAfterUse && IsRun(cfg, run)
    ensures ExecutesInPlace(cfg, Last(run))
  {
    var k := |run| - 1;
    RunIsGood(cfg, run, k);
    forall c, id: ChunkId, v: nat |
      0 <= c < |run[k].phase| && run[k].phase[c].Executing? && id.osc in run[k].held[c] && InChunk(cfg, id, v)
      ensures v < |run[k].mem.frameOf| && InSomeWay(cfg, run[k], id, v)
    {
      var w := ExecutesFromItsWays(cfg, run, k, c, id, v);
    }
  }
}
