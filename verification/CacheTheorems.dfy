/** What the cache machine guarantees in every state of every run. */
module CacheTheorems {
  import opened EventTypes
  import opened PagedMemory
  import opened CacheMachine
  import opened CacheProofs

  // ----- remaining invariants -----

  lemma {:induction false} NextWayKeepsMemory(cfg: Config, s: State, s': State, c: nat)
    requires Shape(cfg, s) && c < |s.phase| && NextWay(cfg, s, s', c) && MemoryOk(cfg, s)
    requires WaysOk(cfg, s) && EvictOk(cfg, s, c)
    ensures Shape(cfg, s') && MemoryOk(cfg, s')
  {
    var Evict(todo, w, k) := s.phase[c];
    assert WayOk(cfg, s, w);
    forall u | 0 <= u < |s'.inWay| ensures PageOk(cfg, s', u) {
      assert PageOk(cfg, s, u);
    }
  }

  /** Steps that leave memory and the ways' contents alone. */
  lemma {:induction false} OtherKeepsMemory(cfg: Config, s: State, s': State, c: nat, a: Action)
    requires Shape(cfg, s) && c < |s.phase| && Does(cfg, s, s', c, a) && MemoryOk(cfg, s)
    requires !a.DoMiss? && !a.DoFillPage? && !a.DoWrite? && !a.DoEvictPage? && !a.DoNextWay?
    ensures Shape(cfg, s') && MemoryOk(cfg, s')
  {
    StepKeepsShape(cfg, s, s', c, a);
    SameContents(cfg, s, s', c, a);
    forall u | 0 <= u < |s'.inWay| ensures PageOk(cfg, s', u) {
      assert PageOk(cfg, s, u);
    }
  }

  lemma {:induction false} SameContents(cfg: Config, s: State, s': State, c: nat, a: Action)
    requires Shape(cfg, s) && c < |s.phase| && Does(cfg, s, s', c, a)
    requires !a.DoMiss? && !a.DoFillPage? && !a.DoWrite? && !a.DoEvictPage? && !a.DoNextWay?
    ensures s'.mem == s.mem && s'.reference == s.reference && s'.inWay == s.inWay && |s'.ways| == |s.ways|
    ensures forall w :: 0 <= w < |s.ways| ==> s'.ways[w].content == s.ways[w].content
  {
  }

  lemma {:induction false} StepKeepsMemory(cfg: Config, s: State, s': State, c: nat, a: Action)
    requires Shape(cfg, s) && c < |s.phase| && Does(cfg, s, s', c, a) && MemoryOk(cfg, s)
    requires WaysOk(cfg, s) && EvictOk(cfg, s, c)
    ensures Shape(cfg, s') && MemoryOk(cfg, s')
  {
    match a
    case DoMiss(w) =>
      assert WayOk(cfg, s, w);
      MissKeepsMemory(cfg, s, s', c, w);
    case DoFillPage =>
      assert PhaseOk(cfg, s, c);
      FillKeepsMemory(cfg, s, s', c);
    case DoWrite(v, i, value) => WriteKeepsMemory(cfg, s, s', c, v, i, value);
    case DoEvictPage => EvictKeepsMemory(cfg, s, s', c);
    case DoNextWay => NextWayKeepsMemory(cfg, s, s', c);
    case _ => OtherKeepsMemory(cfg, s, s', c, a);
  }

  lemma {:induction false} StepKeepsWays(cfg: Config, s: State, s': State, c: nat, a: Action)
    requires Shape(cfg, s) && c < |s.phase| && Does(cfg, s, s', c, a) && WaysOk(cfg, s) && EvictOk(cfg, s, c)
    ensures Shape(cfg, s') && WaysOk(cfg, s')
  {
    match a
    case DoBegin(_) => HoldKeepsWays(cfg, s, s', c, a);
    case DoHit(_) => TakeKeepsWays(cfg, s, s', c, a);
    case DoMiss(_) => TakeKeepsWays(cfg, s, s', c, a);
    case DoRecord => RecordKeepsWays(cfg, s, s', c, a);
    case DoNextWay => NextWayKeepsWays(cfg, s, s', c, a);
    case DoFree => FreeKeepsWays(cfg, s, s', c, a);
    case DoFinish => FinishKeepsWays(cfg, s, s', c, a);
    case _ => QuietKeepsWays(cfg, s, s', c, a);
  }

  /** A step of CPU c leaves the records of other CPUs' components as they are, or clears them. */
  lemma {:induction false} OthersRecords(cfg: Config, s: State, s': State, c: nat, a: Action, d: nat)
    requires Shape(cfg, s) && c < |s.phase| && Does(cfg, s, s', c, a) && WaysOk(cfg, s) && d < |s.phase| && d != c
    ensures |s'.ways| == |s.ways| && |s'.phase| == |s.phase| && s'.phase[d] == s.phase[d]
    ensures forall w :: 0 <= w < |s.ways| && s'.ways[w].record.Some? && s'.ways[w].record.value.osc in s.held[d] ==>
              s'.ways[w].record == s.ways[w].record && (s.ways[w].content == None ==> s'.ways[w].content == None)
  {
    assert PhaseOk(cfg, s, c);
  }

  /** Pages only go into ways without a record. */
  lemma {:induction false} PagesEnterUnrecorded(cfg: Config, s: State, s': State, c: nat, a: Action)
    requires Shape(cfg, s) && c < |s.phase| && Does(cfg, s, s', c, a) && PhaseOk(cfg, s, c)
    ensures |s'.inWay| == |s.inWay|
    ensures forall v, w :: 0 <= v < |s.inWay| && 0 <= w < |s.ways| && s'.inWay[v] == Some(w) ==>
              s.inWay[v] == Some(w) || s.ways[w].record == None
  {
  }

  lemma {:induction false} OthersKeepEvict(cfg: Config, s: State, s': State, c: nat, a: Action, d: nat)
    requires Shape(cfg, s) && c < |s.phase| && Does(cfg, s, s', c, a) && WaysOk(cfg, s)
    requires d < |s.phase| && d != c && EvictOk(cfg, s, d)
    ensures Shape(cfg, s') && |s'.phase| == |s.phase| && EvictOk(cfg, s', d)
  {
    StepKeepsShape(cfg, s, s', c, a);
    assert PhaseOk(cfg, s, c) && PhaseOk(cfg, s, d);
    OthersRecords(cfg, s, s', c, a, d);
    PagesEnterUnrecorded(cfg, s, s', c, a);
  }

  lemma {:induction false} OwnStepKeepsEvict(cfg: Config, s: State, s': State, c: nat, a: Action)
    requires Shape(cfg, s) && c < |s.phase| && Does(cfg, s, s', c, a) && WaysOk(cfg, s) && EvictOk(cfg, s, c)
    ensures Shape(cfg, s') && |s'.phase| == |s.phase| && EvictOk(cfg, s', c)
  {
    StepKeepsShape(cfg, s, s', c, a);
  }

  // ----- loaded chunks -----

  /** Chunk `id` of one of CPU c's components is loaded and not yet freed. */
  ghost predicate Loaded(cfg: Config, s: State, c: nat, id: ChunkId)
    requires c < |s.phase| == |s.held|
  {
    && IsChunk(cfg, id) && id.osc in s.held[c]
    && match s.phase[c]
       case Load(todo, index, _) => id.osc !in todo || (id.osc == todo[0] && id.index < index)
       case Fill(todo, index, _, _) => id.osc !in todo || (id.osc == todo[0] && id.index < index)
       case Recording(todo, index, _, _) => id.osc !in todo || (id.osc == todo[0] && id.index < index)
       case Executing => true
       case Evict(todo, _, _) => id.osc in todo
       case _ => false
  }

  ghost predicate SlotOk(cfg: Config, s: State, c: nat, id: ChunkId)
    requires c < |s.phase| == |s.held|
  {
    Loaded(cfg, s, c, id) ==>
      id in s.slot && s.slot[id] < |s.ways| && s.ways[s.slot[id]].record == Some(id) && s.ways[s.slot[id]].inUse
  }

  lemma {:induction false} TakeKeepsSlots(cfg: Config, s: State, s': State, c: nat, a: Action, d: nat, id: ChunkId)
    requires Shape(cfg, s) && c < |s.phase| && Does(cfg, s, s', c, a) && WaysOk(cfg, s)
    requires a.DoHit? || a.DoMiss? || a.DoRecord? || a.DoNextWay?
    requires d < |s.phase| && SlotOk(cfg, s, d, id)
    ensures Shape(cfg, s') && |s'.phase| == |s.phase| && SlotOk(cfg, s', d, id)
  {
    StepKeepsShape(cfg, s, s', c, a);
    assert PhaseOk(cfg, s, c) && PhaseOk(cfg, s, d);
  }

  lemma {:induction false} FreeKeepsSlots(cfg: Config, s: State, s': State, c: nat, a: Action, d: nat, id: ChunkId)
    requires Shape(cfg, s) && c < |s.phase| && Does(cfg, s, s', c, a) && WaysOk(cfg, s) && a.DoFree?
    requires d < |s.phase| && SlotOk(cfg, s, d, id)
    ensures Shape(cfg, s') && |s'.phase| == |s.phase| && SlotOk(cfg, s', d, id)
  {
    StepKeepsShape(cfg, s, s', c, a);
    assert PhaseOk(cfg, s, c) && PhaseOk(cfg, s, d);
    TailAmong(cfg, s.phase[c].todo, s.held[c]);
    assert s.phase[c].todo[0] in s.held[c];
  }

  lemma {:induction false} NextComponentKeepsSlots(cfg: Config, s: State, s': State, c: nat, a: Action, d: nat, id: ChunkId)
    requires Shape(cfg, s) && c < |s.phase| && Does(cfg, s, s', c, a) && WaysOk(cfg, s) && a.DoNextComponent?
    requires d < |s.phase| && SlotOk(cfg, s, d, id)
    ensures Shape(cfg, s') && |s'.phase| == |s.phase| && SlotOk(cfg, s', d, id)
  {
    StepKeepsShape(cfg, s, s', c, a);
    assert PhaseOk(cfg, s, c);
    TailAmong(cfg, s.phase[c].todo, s.held[c]);
  }

  lemma {:induction false} OtherKeepsSlots(cfg: Config, s: State, s': State, c: nat, a: Action, d: nat, id: ChunkId)
    requires Shape(cfg, s) && c < |s.phase| && Does(cfg, s, s', c, a) && WaysOk(cfg, s)
    requires !a.DoHit? && !a.DoMiss? && !a.DoRecord? && !a.DoNextWay? && !a.DoFree? && !a.DoNextComponent?
    requires d < |s.phase| && SlotOk(cfg, s, d, id)
    ensures Shape(cfg, s') && |s'.phase| == |s.phase| && SlotOk(cfg, s', d, id)
  {
    StepKeepsShape(cfg, s, s', c, a);
    assert PhaseOk(cfg, s, c) && PhaseOk(cfg, s, d);
  }

  lemma {:induction false} StepKeepsSlots(cfg: Config, s: State, s': State, c: nat, a: Action, d: nat, id: ChunkId)
    requires Shape(cfg, s) && c < |s.phase| && Does(cfg, s, s', c, a) && WaysOk(cfg, s)
    requires d < |s.phase| && SlotOk(cfg, s, d, id)
    ensures Shape(cfg, s') && |s'.phase| == |s.phase| && SlotOk(cfg, s', d, id)
  {
    match a
    case DoHit(_) => TakeKeepsSlots(cfg, s, s', c, a, d, id);
    case DoMiss(_) => TakeKeepsSlots(cfg, s, s', c, a, d, id);
    case DoRecord => TakeKeepsSlots(cfg, s, s', c, a, d, id);
    case DoNextWay => TakeKeepsSlots(cfg, s, s', c, a, d, id);
    case DoNextComponent => NextComponentKeepsSlots(cfg, s, s', c, a, d, id);
    case DoFree => FreeKeepsSlots(cfg, s, s', c, a, d, id);
    case _ => OtherKeepsSlots(cfg, s, s', c, a, d, id);
  }

  // ----- runs -----

  ghost predicate Good(cfg: Config, s: State)
  {
    && Shape(cfg, s) && MemoryOk(cfg, s) && WaysOk(cfg, s)
    && (forall c :: 0 <= c < |s.phase| ==> EvictOk(cfg, s, c))
    && (forall c, id: ChunkId :: 0 <= c < |s.phase| ==> SlotOk(cfg, s, c, id))
  }

  lemma {:induction false} InitIsGood(cfg: Config, s: State)
    requires Init(cfg, s)
    ensures Good(cfg, s)
  {
  }

  lemma {:induction false} StepKeepsGood(cfg: Config, s: State, s': State)
    requires Good(cfg, s) && Step(cfg, s, s')
    ensures Good(cfg, s') && |s'.phase| == |s.phase| && |s'.inWay| == |s.inWay|
  {
    var c: nat, a: Action :| c < |s.phase| && Does(cfg, s, s', c, a);
    StepKeepsShape(cfg, s, s', c, a);
    StepKeepsMemory(cfg, s, s', c, a);
    StepKeepsWays(cfg, s, s', c, a);
    forall d | 0 <= d < |s'.phase| ensures EvictOk(cfg, s', d) {
      if d == c {
        OwnStepKeepsEvict(cfg, s, s', c, a);
      } else {
        OthersKeepEvict(cfg, s, s', c, a, d);
      }
    }
    forall d, id: ChunkId | 0 <= d < |s'.phase| ensures SlotOk(cfg, s', d, id) {
      StepKeepsSlots(cfg, s, s', c, a, d, id);
    }
  }

  lemma {:induction false} RunStepKeepsGood(cfg: Config, run: seq<State>, k: nat)
    requires IsRun(cfg, run) && k + 1 < |run| && Good(cfg, run[k])
    ensures Good(cfg, run[k + 1])
    ensures |run[k + 1].phase| == |run[k].phase| && |run[k + 1].inWay| == |run[k].inWay|
  {
    assert Step(cfg, run[k], run[k + 1]);
    StepKeepsGood(cfg, run[k], run[k + 1]);
  }

  lemma {:induction false} RunIsGood(cfg: Config, run: seq<State>, k: nat)
    requires IsRun(cfg, run) && k < |run|
    ensures Good(cfg, run[k]) && |run[k].phase| == |run[0].phase| && |run[k].inWay| == |run[0].inWay|
  {
    if k == 0 {
      InitIsGood(cfg, run[0]);
    } else {
      RunIsGood(cfg, run, k - 1);
      RunStepKeepsGood(cfg, run, k - 1);
    }
  }
}
