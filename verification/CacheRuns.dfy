/** Making runs of the cache machine: a CPU loads its chunks, one by one or all of them, and evicts them,
    while the other CPUs rest. */
module CacheRuns {
  import opened EventTypes
  import opened PagedMemory
  import opened CacheMachine
  import opened CacheProofs
  import opened CacheTheorems
  import opened CacheProgress

  function Last(run: seq<State>): State
    requires run != []
  {
    run[|run| - 1]
  }

  /** A longer run, in which no CPU takes or gives back components. */
  ghost predicate Continues(run: seq<State>, longer: seq<State>)
  {
    && run != [] && run <= longer
    && forall i :: |run| <= i < |longer| ==> longer[i].held == Last(run).held
  }

  lemma {:induction false} ContinuesOn(run: seq<State>, next: seq<State>, longer: seq<State>)
    requires Continues(run, next) && Continues(next, longer)
    ensures Continues(run, longer)
  {
    assert Last(next).held == Last(run).held;
    forall i | |run| <= i < |longer| ensures longer[i].held == Last(run).held {
      if i < |next| {
        assert longer[i] == next[i];
      }
    }
  }

  lemma {:induction false} Extend(cfg: Config, run: seq<State>, c: nat, a: Action, s': State) returns (longer: seq<State>)
    requires IsRun(cfg, run) && Shape(cfg, Last(run)) && c < |Last(run).phase| && Does(cfg, Last(run), s', c, a)
    ensures IsRun(cfg, longer) && longer == run + [s'] && Last(longer) == s' && run <= longer
  {
    longer := run + [s'];
    forall i | 0 <= i < |longer| - 1 ensures Step(cfg, longer[i], longer[i + 1]) {
      if i < |run| - 1 {
        assert Step(cfg, run[i], run[i + 1]);
      } else {
        assert Step(cfg, Last(run), s');
      }
    }
  }

  lemma {:induction false} LastIsGood(cfg: Config, run: seq<State>)
    requires IsRun(cfg, run)
    ensures Good(cfg, Last(run)) && |Last(run).phase| == |run[0].phase|
    ensures forall c :: 0 <= c < |Last(run).phase| ==> CountersOk(cfg, Last(run), c) && PhaseOk(cfg, Last(run), c)
    ensures forall w :: 0 <= w < |Last(run).ways| ==> WayOk(cfg, Last(run), w)
  {
    RunIsGood(cfg, run, |run| - 1);
    forall c | 0 <= c < |Last(run).phase| ensures CountersOk(cfg, Last(run), c) {
      RunKeepsCounters(cfg, run, |run| - 1, c);
    }
  }

  // ----- loading -----

  /** All pages of the current chunk go to the way. */
  lemma {:induction false} FillChunk(cfg: Config, run: seq<State>, c: nat) returns (longer: seq<State>)
    requires IsRun(cfg, run) && c < |Last(run).phase| && Last(run).phase[c].Fill?
    ensures IsRun(cfg, longer) && Continues(run, longer)
    ensures var s, s' := Last(run), Last(longer); var p := s.phase[c];
            s'.phase == s.phase[c := Recording(p.todo, p.index, p.way, false)] && s'.ways == s.ways && s'.found == s.found
    decreases if Last(run).phase[c].todo == [] then 0
              else ChunkOfOr(cfg, ChunkId(Last(run).phase[c].todo[0], Last(run).phase[c].index)).count - Last(run).phase[c].page
  {
    LastIsGood(cfg, run);
    var a, s' := FillCanGoOn(cfg, Last(run), c);
    longer := Extend(cfg, run, c, a, s');
    if a.DoFillPage? {
      var next := longer;
      longer := FillChunk(cfg, next, c);
      ContinuesOn(run, next, longer);
    }
  }

  lemma {:induction false} RecordChunk(cfg: Config, run: seq<State>, c: nat) returns (longer: seq<State>)
    requires IsRun(cfg, run) && c < |Last(run).phase| && Last(run).phase[c].Recording?
    ensures IsRun(cfg, longer) && Continues(run, longer)
    ensures var s, s' := Last(run), Last(longer); var p := s.phase[c];
            && p.todo != [] && p.way < |s.ways|
            && s'.phase == s.phase[c := Load(p.todo, p.index + 1, p.skip)] && s'.found == s.found
            && s'.ways == s.ways[p.way := s.ways[p.way].(record := Some(ChunkId(p.todo[0], p.index)))]
  {
    LastIsGood(cfg, run);
    var s := Last(run);
    var p := s.phase[c];
    assert PhaseOk(cfg, s, c);
    var id := ChunkId(p.todo[0], p.index);
    var s' := s.(ways := s.ways[p.way := s.ways[p.way].(record := Some(id))], slot := s.slot[id := p.way],
                 phase := s.phase[c := Load(p.todo, p.index + 1, p.skip)]);
    longer := Extend(cfg, run, c, DoRecord, s');
  }

  /** What loading one chunk into way w changes. */
  ghost predicate ChunkLoaded(s: State, s': State, c: nat, w: nat, skip: bool)
    requires c < |s.phase| && s.phase[c].Load? && s.phase[c].todo != []
  {
    var Load(todo, index, _) := s.phase[c];
    && s'.phase == s.phase[c := Load(todo, index + 1, skip)]
    && w < |s.ways| == |s'.ways| && (forall x :: 0 <= x < |s.ways| && x != w ==> s'.ways[x] == s.ways[x])
    && s'.ways[w].record == Some(ChunkId(todo[0], index)) && s'.ways[w].inUse && s'.ways[w].locked == s.ways[w].locked
  }

  /** getLRUWay gives way w to the current chunk, and its pages go there unless they are skipped. */
  lemma {:induction false} TakeWay(cfg: Config, run: seq<State>, c: nat, w: nat) returns (longer: seq<State>)
    requires IsRun(cfg, run) && c < |Last(run).phase| && AtChunk(cfg, Last(run), c)
    requires NotRecorded(Last(run), ChunkId(Last(run).phase[c].todo[0], Last(run).phase[c].index))
    requires w < |Last(run).ways| && Eligible(Last(run).ways[w])
    ensures IsRun(cfg, longer) && Continues(run, longer)
    ensures var s, s' := Last(run), Last(longer); var Load(todo, index, skip) := s.phase[c];
            && s'.phase == s.phase[c := Recording(todo, index, w, skip)] && s'.found == s.found && |s'.ways| == |s.ways|
            && (forall x :: 0 <= x < |s.ways| && x != w ==> s'.ways[x] == s.ways[x])
            && s'.ways[w].inUse && !s'.ways[w].locked
  {
    LastIsGood(cfg, run);
    assert WayOk(cfg, Last(run), w);
    var s' := CanMiss(cfg, Last(run), c, w);
    longer := Extend(cfg, run, c, DoMiss(w), s');
    if s'.phase[c].Fill? {
      var looked := longer;
      longer := FillChunk(cfg, looked, c);
      ContinuesOn(run, looked, longer);
    }
  }

  /** The current chunk is not recorded: it gets way w. */
  lemma {:induction false} LoadByMiss(cfg: Config, run: seq<State>, c: nat, w: nat) returns (longer: seq<State>)
    requires IsRun(cfg, run) && c < |Last(run).phase| && AtChunk(cfg, Last(run), c)
    requires NotRecorded(Last(run), ChunkId(Last(run).phase[c].todo[0], Last(run).phase[c].index))
    requires w < |Last(run).ways| && Eligible(Last(run).ways[w])
    ensures IsRun(cfg, longer) && Continues(run, longer)
    ensures ChunkLoaded(Last(run), Last(longer), c, w, Last(run).phase[c].skip) && Last(longer).found == Last(run).found
  {
    var taken := TakeWay(cfg, run, c, w);
    longer := RecordChunk(cfg, taken, c);
    ContinuesOn(run, taken, longer);
  }

  /** The current chunk is recorded in way w. */
  lemma {:induction false} LoadByHit(cfg: Config, run: seq<State>, c: nat, w: nat) returns (longer: seq<State>)
    requires IsRun(cfg, run) && c < |Last(run).phase| && AtChunk(cfg, Last(run), c) && c < |Last(run).found|
    requires w < |Last(run).ways|
    requires Last(run).ways[w].record == Some(ChunkId(Last(run).phase[c].todo[0], Last(run).phase[c].index))
    ensures IsRun(cfg, longer) && Continues(run, longer)
    ensures ChunkLoaded(Last(run), Last(longer), c, w, true)
    ensures Last(longer).found ==
            Last(run).found[c := Last(run).found[c] + {ChunkId(Last(run).phase[c].todo[0], Last(run).phase[c].index)}]
  {
    LastIsGood(cfg, run);
    var s' := CanHit(cfg, Last(run), c, w);
    var looked := Extend(cfg, run, c, DoHit(w), s');
    longer := RecordChunk(cfg, looked, c);
    ContinuesOn(run, looked, longer);
  }

  /** The last chunk of the last component is loaded. */
  lemma {:induction false} StartExecution(cfg: Config, run: seq<State>, c: nat) returns (longer: seq<State>)
    requires IsRun(cfg, run) && c < |Last(run).phase| && Last(run).phase[c].Load?
    requires var p := Last(run).phase[c]; |p.todo| == 1 && p.todo[0] < |cfg.chunks| && p.index == |cfg.chunks[p.todo[0]]|
    ensures IsRun(cfg, longer) && Continues(run, longer)
    ensures Last(longer) == Last(run).(phase := Last(run).phase[c := Executing])
  {
    LastIsGood(cfg, run);
    var s := Last(run);
    var s1 := s.(phase := s.phase[c := Load([], 0, false)]);
    assert s.phase[c].todo[1..] == [];
    var next := Extend(cfg, run, c, DoNextComponent, s1);
    longer := Extend(cfg, next, c, DoExecute, s1.(phase := s1.phase[c := Executing]));
    assert s1.phase[c := Executing] == s.phase[c := Executing];
  }

  /** One turn of loading: the next chunk gets its way, or the next component is due, or CPU c executes,
      or there is no way for the chunk. */
  lemma {:induction false} LoadTurn(cfg: Config, run: seq<State>, c: nat) returns (longer: seq<State>)
    requires IsRun(cfg, run) && c < |Last(run).phase| && Last(run).phase[c].Load?
    ensures IsRun(cfg, longer) && Continues(run, longer) && |Last(longer).phase| == |Last(run).phase|
    ensures Last(longer).phase == Last(run).phase[c := Last(longer).phase[c]]
    ensures var Load(todo, index, _) := Last(run).phase[c]; var p' := Last(longer).phase[c];
            || p'.Executing? || p'.Stuck?
            || (p'.Load? && todo != [] && p'.todo == todo[1..] && p'.index == 0)
            || (p'.Load? && todo != [] && p'.todo == todo && p'.index == index + 1 && IsChunk(cfg, ChunkId(todo[0], index)))
  {
    LastIsGood(cfg, run);
    var s := Last(run);
    var a, s' := LoadCanGoOn(cfg, s, c);
    if a.DoHit? {
      longer := LoadByHit(cfg, run, c, a.w);
    } else if a.DoMiss? {
      longer := LoadByMiss(cfg, run, c, a.w);
    } else {
      longer := Extend(cfg, run, c, a, s');
    }
  }

  /** CPU c loads all it has still to load, and executes, or finds no way for a chunk. */
  lemma {:induction false} LoadTask(cfg: Config, run: seq<State>, c: nat) returns (longer: seq<State>)
    requires IsRun(cfg, run) && c < |Last(run).phase| && Last(run).phase[c].Load?
    ensures IsRun(cfg, longer) && Continues(run, longer) && |Last(longer).phase| == |Last(run).phase|
    ensures Last(longer).phase == Last(run).phase[c := Last(longer).phase[c]]
    ensures Last(longer).phase[c].Executing? || Last(longer).phase[c].Stuck?
    decreases |Last(run).phase[c].todo|,
              if Last(run).phase[c].todo != [] && Last(run).phase[c].todo[0] < |cfg.chunks|
              then |cfg.chunks[Last(run).phase[c].todo[0]]| - Last(run).phase[c].index else 0
  {
    longer := LoadTurn(cfg, run, c);
    if Last(longer).phase[c].Load? {
      var next := longer;
      longer := LoadTask(cfg, next, c);
      ContinuesOn(run, next, longer);
    }
  }

  // ----- beginning and evicting -----

  lemma {:induction false} BeginTask(cfg: Config, run: seq<State>, c: nat, oscs: seq<nat>) returns (longer: seq<State>)
    requires IsRun(cfg, run) && c < |Last(run).phase| && Last(run).phase[c].Idle?
    requires oscs != [] && Among(cfg, oscs, oscs)
    requires forall d, o :: 0 <= d < |Last(run).held| && o in oscs ==> o !in Last(run).held[d]
    ensures IsRun(cfg, longer) && |longer| == |run| + 1 && run <= longer && |Last(run).held| == |Last(run).found| == |Last(run).phase|
    ensures var s := Last(run);
            Last(longer) == s.(phase := s.phase[c := Load(oscs, 0, false)], held := s.held[c := oscs], found := s.found[c := {}])
  {
    LastIsGood(cfg, run);
    var s' := IdleCanBegin(cfg, run, |run| - 1, c, oscs);
    longer := Extend(cfg, run, c, DoBegin(oscs), s');
  }

  /** What evicting the components in `oscs` makes of a way. */
  ghost predicate WayEvicted(cfg: Config, w: Way, w': Way, oscs: seq<nat>)
  {
    var mine := w.record.Some? && w.record.value.osc in oscs;
    && w'.locked == w.locked && w'.inUse == (w.inUse && !mine)
    && w'.record == if mine && cfg.evictAfterUse then None else w.record
  }

  ghost predicate WaysEvicted(cfg: Config, s: State, s': State, oscs: seq<nat>)
  {
    |s'.ways| == |s.ways| && forall w :: 0 <= w < |s.ways| ==> WayEvicted(cfg, s.ways[w], s'.ways[w], oscs)
  }

  lemma {:induction false} EvictedOn(cfg: Config, s: State, s1: State, s': State, a: Action, c: nat)
    requires Shape(cfg, s) && c < |s.phase| && Does(cfg, s, s1, c, a) && s.phase[c].Evict? && s.phase[c].todo != []
    requires s1.phase[c].Evict? && WaysEvicted(cfg, s1, s', s1.phase[c].todo) && |s1.ways| == |s.ways|
    requires a.DoFree? || a.DoEvictPage? || a.DoNextWay?
    ensures WaysEvicted(cfg, s, s', s.phase[c].todo)
  {
    var todo := s.phase[c].todo;
    assert todo == [todo[0]] + todo[1..];
    forall w | 0 <= w < |s.ways| ensures WayEvicted(cfg, s.ways[w], s'.ways[w], todo) {
      assert WayEvicted(cfg, s1.ways[w], s'.ways[w], s1.phase[c].todo);
    }
  }

  lemma {:induction false} EvictStep(cfg: Config, run: seq<State>, c: nat) returns (a: Action, longer: seq<State>)
    requires IsRun(cfg, run) && c < |Last(run).phase| && Last(run).phase[c].Evict?
    ensures IsRun(cfg, longer) && Shape(cfg, Last(run)) && |Last(run).phase| == |Last(longer).phase|
    ensures Does(cfg, Last(run), Last(longer), c, a)
    ensures a.DoFinish? || a.DoFree? || a.DoEvictPage? || a.DoNextWay?
    ensures Last(run).phase[c].way <= |Last(run).ways|
  {
    LastIsGood(cfg, run);
    assert PhaseOk(cfg, Last(run), c);
    var s';
    a, s' := EvictCanGoOn(cfg, Last(run), c);
    longer := Extend(cfg, run, c, a, s');
  }

  /** A CPU evicts what it has still to evict and is idle again. */
  lemma {:induction false} EvictRest(cfg: Config, run: seq<State>, c: nat) returns (longer: seq<State>)
    requires IsRun(cfg, run) && c < |Last(run).phase| && Last(run).phase[c].Evict?
    ensures IsRun(cfg, longer) && WaysEvicted(cfg, Last(run), Last(longer), Last(run).phase[c].todo)
    ensures Last(longer).phase == Last(run).phase[c := Idle] && Last(longer).found == Last(run).found
    ensures c < |Last(run).held| && Last(longer).held == Last(run).held[c := []]
    decreases |Last(run).phase[c].todo|, |Last(run).ways| - Last(run).phase[c].way,
              if Last(run).phase[c].way < |Last(run).ways| && Last(run).ways[Last(run).phase[c].way].record.Some? then
                ChunkOfOr(cfg, Last(run).ways[Last(run).phase[c].way].record.value).count - Last(run).phase[c].page
              else 0
  {
    var a;
    a, longer := EvictStep(cfg, run, c);
    if !a.DoFinish? {
      var next := longer;
      longer := EvictRest(cfg, next, c);
      EvictedOn(cfg, Last(run), Last(next), Last(longer), a, c);
    }
  }

  lemma {:induction false} EvictTask(cfg: Config, run: seq<State>, c: nat) returns (longer: seq<State>)
    requires IsRun(cfg, run) && c < |Last(run).phase| && Last(run).phase[c].Executing?
    ensures IsRun(cfg, longer) && c < |Last(run).held| && WaysEvicted(cfg, Last(run), Last(longer), Last(run).held[c])
    ensures Last(longer).phase == Last(run).phase[c := Idle] && Last(longer).held == Last(run).held[c := []]
    ensures Last(longer).found == Last(run).found
  {
    LastIsGood(cfg, run);
    var s := Last(run);
    var next := Extend(cfg, run, c, DoStartEvict, s.(phase := s.phase[c := Evict(s.held[c], 0, 0)]));
    longer := EvictRest(cfg, next, c);
  }
}
