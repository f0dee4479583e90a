/** No CPU of the cache machine is ever blocked: it can always take its next step. */
module CacheProgress {
  import opened EventTypes
  import opened PagedMemory
  import opened CacheMachine
  import opened CacheProofs
  import opened CacheTheorems

  /** The page counters of the two copying loops stay within the chunk. */
  ghost predicate CountersOk(cfg: Config, s: State, c: nat)
    requires Shape(cfg, s) && c < |s.phase|
  {
    match s.phase[c]
    case Fill(todo, index, _, k) => todo != [] && k <= ChunkOfOr(cfg, ChunkId(todo[0], index)).count
    case Evict(todo, w, k) =>
      todo != [] && w < |s.ways| && Belongs(s, w, todo[0]) ==> k <= ChunkOfOr(cfg, s.ways[w].record.value).count
    case _ => true
  }

  lemma {:induction false} StepKeepsCounters(cfg: Config, s: State, s': State, c: nat, a: Action, d: nat)
    requires Good(cfg, s) && c < |s.phase| && Does(cfg, s, s', c, a) && d < |s.phase| && CountersOk(cfg, s, d)
    ensures Shape(cfg, s') && d < |s'.phase| && CountersOk(cfg, s', d)
  {
    StepKeepsShape(cfg, s, s', c, a);
    assert PhaseOk(cfg, s, c) && PhaseOk(cfg, s, d);
    if d != c {
      OthersRecords(cfg, s, s', c, a, d);
    }
  }

  lemma {:induction false} RunKeepsCounters(cfg: Config, run: seq<State>, k: nat, d: nat)
    requires IsRun(cfg, run) && k < |run| && d < |run[0].phase|
    ensures Good(cfg, run[k]) && d < |run[k].phase| && CountersOk(cfg, run[k], d)
  {
    RunIsGood(cfg, run, k);
    if k > 0 {
      RunKeepsCounters(cfg, run, k - 1, d);
      assert Step(cfg, run[k - 1], run[k - 1 + 1]);
      var c: nat, a: Action :| c < |run[k - 1].phase| && Does(cfg, run[k - 1], run[k], c, a);
      StepKeepsCounters(cfg, run[k - 1], run[k], c, a, d);
    }
  }

  lemma {:induction false} CanHit(cfg: Config, s: State, c: nat, w: nat) returns (s': State)
    requires Shape(cfg, s) && c < |s.phase| && AtChunk(cfg, s, c) && w < |s.ways|
    requires s.ways[w].record == Some(ChunkId(s.phase[c].todo[0], s.phase[c].index))
    ensures Hit(cfg, s, s', c, w)
  {
    var Load(todo, index, skip) := s.phase[c];
    var id := ChunkId(todo[0], index);
    s' := s.(ways := s.ways[w := s.ways[w].(inUse := true, user := c, tag := id)],
             phase := s.phase[c := Recording(todo, index, w, true)], found := s.found[c := s.found[c] + {id}]);
  }

  lemma {:induction false} CanMiss(cfg: Config, s: State, c: nat, w: nat) returns (s': State)
    requires Shape(cfg, s) && c < |s.phase| && AtChunk(cfg, s, c) && w < |s.ways| && Eligible(s.ways[w])
    requires NotRecorded(s, ChunkId(s.phase[c].todo[0], s.phase[c].index))
    requires s.ways[w].record.Some? ==> IsChunk(cfg, s.ways[w].record.value)
    ensures Miss(cfg, s, s', c, w)
  {
    var Load(todo, index, skip) := s.phase[c];
    var r, id := s.ways[w].record, ChunkId(todo[0], index);
    s' := s.(mem := if r.Some? then Home(cfg, s, r.value) else s.mem,
             inWay := if r.Some? then SentHome(cfg, s, r.value) else s.inWay,
             ways := s.ways[w := s.ways[w].(record := None, inUse := true, user := c, tag := id,
                                            content := if skip then None else Some(id))],
             phase := s.phase[c := if skip then Recording(todo, index, w, true) else Fill(todo, index, w, 0)]);
  }

  lemma {:induction false} LoadCanGoOn(cfg: Config, s: State, c: nat) returns (a: Action, s': State)
    requires Good(cfg, s) && c < |s.phase| && s.phase[c].Load?
    ensures Does(cfg, s, s', c, a)
    ensures a.DoStuck? ==> forall w :: 0 <= w < |s.ways| ==> !Eligible(s.ways[w])
    ensures a.DoStuck? || a.DoHit? || a.DoMiss? || a.DoNextComponent? || a.DoExecute?
  {
    assert PhaseOk(cfg, s, c);
    var Load(todo, index, skip) := s.phase[c];
    if todo == [] {
      a, s' := DoExecute, s.(phase := s.phase[c := Executing]);
    } else if index == |cfg.chunks[todo[0]]| {
      a, s' := DoNextComponent, s.(phase := s.phase[c := Load(todo[1..], 0, false)]);
    } else {
      var id := ChunkId(todo[0], index);
      if !NotRecorded(s, id) {
        var w :| 0 <= w < |s.ways| && s.ways[w].record == Some(id);
        a := DoHit(w);
        s' := CanHit(cfg, s, c, w);
      } else if w :| 0 <= w < |s.ways| && Eligible(s.ways[w]) {
        assert WayOk(cfg, s, w);
        a := DoMiss(w);
        s' := CanMiss(cfg, s, c, w);
      } else {
        a, s' := DoStuck, s.(phase := s.phase[c := Stuck]);
      }
    }
  }

  lemma {:induction false} FillCanGoOn(cfg: Config, s: State, c: nat) returns (a: Action, s': State)
    requires Good(cfg, s) && c < |s.phase| && CountersOk(cfg, s, c) && s.phase[c].Fill?
    ensures Does(cfg, s, s', c, a) && (a.DoFillPage? || a.DoFillDone?)
  {
    assert PhaseOk(cfg, s, c);
    var Fill(todo, index, w, k) := s.phase[c];
    var chunk := ChunkOf(cfg, ChunkId(todo[0], index));
    if k == chunk.count {
      a, s' := DoFillDone, s.(phase := s.phase[c := Recording(todo, index, w, false)]);
    } else {
      var v := chunk.first + k;
      assert InChunk(cfg, ChunkId(todo[0], index), v);
      a := DoFillPage;
      s' := s.(mem := Move(s.mem, v, cfg.placement[w][k]), inWay := s.inWay[v := Some(w)],
               phase := s.phase[c := Fill(todo, index, w, k + 1)]);
    }
  }

  lemma {:induction false} EvictCanGoOn(cfg: Config, s: State, c: nat) returns (a: Action, s': State)
    requires Good(cfg, s) && c < |s.phase| && CountersOk(cfg, s, c) && s.phase[c].Evict?
    ensures Does(cfg, s, s', c, a) && (a.DoFinish? || a.DoFree? || a.DoEvictPage? || a.DoNextWay?)
  {
    assert PhaseOk(cfg, s, c);
    var Evict(todo, w, k) := s.phase[c];
    if todo == [] {
      a, s' := DoFinish, s.(phase := s.phase[c := Idle], held := s.held[c := []]);
    } else if w == |s.ways| {
      a := DoFree;
      s' := s.(ways := seq(|s.ways|, x requires 0 <= x < |s.ways| => Freed(cfg, s.ways[x], todo[0])),
               phase := s.phase[c := Evict(todo[1..], 0, 0)]);
    } else if Belongs(s, w, todo[0]) && k < ChunkOfOr(cfg, s.ways[w].record.value).count {
      assert WayOk(cfg, s, w);
      var id := s.ways[w].record.value;
      var v := ChunkOf(cfg, id).first + k;
      assert InChunk(cfg, id, v);
      a := DoEvictPage;
      s' := s.(mem := Move(s.mem, v, v), inWay := s.inWay[v := None], phase := s.phase[c := Evict(todo, w, k + 1)]);
    } else {
      a := DoNextWay;
      s' := s.(ways := if Belongs(s, w, todo[0]) then s.ways[w := s.ways[w].(content := None)] else s.ways,
               phase := s.phase[c := Evict(todo, w + 1, 0)]);
    }
  }

  /** In every state of every run, every CPU that has a task and has not given up has a step of its own to
      take, whatever the other CPUs are doing; and it gives up only where all ways are in use or locked. */
  lemma {:induction false} NeverBlocked(cfg: Config, run: seq<State>, k: nat, c: nat) returns (a: Action, s': State)
    requires IsRun(cfg, run) && k < |run| && c < |run[0].phase|
    requires c < |run[k].phase| ==> !run[k].phase[c].Stuck? && !run[k].phase[c].Idle?
    ensures Shape(cfg, run[k]) && c < |run[k].phase| && Does(cfg, run[k], s', c, a)
    ensures a.DoStuck? ==> forall w :: 0 <= w < |run[k].ways| ==> !Eligible(run[k].ways[w])
  {
    RunKeepsCounters(cfg, run, k, c);
    var s := run[k];
    assert PhaseOk(cfg, s, c);
    match s.phase[c]
    case Load(_, _, _) => a, s' := LoadCanGoOn(cfg, s, c);
    case Fill(_, _, _, _) => a, s' := FillCanGoOn(cfg, s, c);
    case Recording(todo, index, w, skip) =>
      var id := ChunkId(todo[0], index);
      a := DoRecord;
      s' := s.(ways := s.ways[w := s.ways[w].(record := Some(id))], slot := s.slot[id := w],
               phase := s.phase[c := Load(todo, index + 1, skip)]);
    case Executing => a, s' := DoStartEvict, s.(phase := s.phase[c := Evict(s.held[c], 0, 0)]);
    case Evict(_, _, _) => a, s' := EvictCanGoOn(cfg, s, c);
  }

  /** An idle CPU waits for a task, and can begin any that shares no component with the other CPUs'. */
  lemma {:induction false} IdleCanBegin(cfg: Config, run: seq<State>, k: nat, c: nat, oscs: seq<nat>) returns (s': State)
    requires IsRun(cfg, run) && k < |run| && c < |run[k].phase| && run[k].phase[c].Idle?
    requires oscs != [] && Among(cfg, oscs, oscs)
    requires forall d, o :: 0 <= d < |run[k].held| && o in oscs ==> o !in run[k].held[d]
    ensures Shape(cfg, run[k]) && Begin(cfg, run[k], s', c, oscs)
  {
    RunIsGood(cfg, run, k);
    var s := run[k];
    s' := s.(phase := s.phase[c := Load(oscs, 0, false)], held := s.held[c := oscs], found := s.found[c := {}]);
  }
}
