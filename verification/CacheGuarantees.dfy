/** The guarantees of the cache management to components: memory looks unmoved, ways are exclusive, and
    an executing component is left alone. */
module CacheGuarantees {
  import opened EventTypes
  import opened PagedMemory
  import opened CacheMachine
  import opened CacheProofs
  import opened CacheTheorems

  // ----- memory transparency -----

  datatype Event = Event(cpu: nat, action: Action)

  /** The steps taken in a run. */
  ghost predicate Trace(cfg: Config, run: seq<State>, events: seq<Event>)
  {
    && |run| == |events| + 1
    && Init(cfg, run[0])
    && forall i :: 0 <= i < |events| ==>
         Shape(cfg, run[i]) && events[i].cpu < |run[i].phase|
         && Does(cfg, run[i], run[i + 1], events[i].cpu, events[i].action)
  }

  /** A memory without caches, frames or moves: page by page, only the writes change it. */
  function PlainMemory(start: seq<seq<Word>>, events: seq<Event>): (m: seq<seq<Word>>)
    ensures |m| == |start|
  {
    if events == [] then start
    else
      var before := PlainMemory(start, events[..|events| - 1]);
      match events[|events| - 1].action
      case DoWrite(v, i, value) =>
        if v < |before| && i < |before[v]| then before[v := before[v][i := value]] else before
      case _ => before
  }

  lemma {:induction false} TraceIsRun(cfg: Config, run: seq<State>, events: seq<Event>)
    requires Trace(cfg, run, events)
    ensures IsRun(cfg, run)
  {
    forall i | 0 <= i < |run| - 1 ensures Step(cfg, run[i], run[i + 1]) {
      assert Does(cfg, run[i], run[i + 1], events[i].cpu, events[i].action);
    }
  }

  lemma {:induction false} ReferenceIsPlain(cfg: Config, run: seq<State>, events: seq<Event>, k: nat)
    requires Trace(cfg, run, events) && k <= |events|
    ensures run[k].reference == PlainMemory(run[0].reference, events[..k])
  {
    if k > 0 {
      ReferenceIsPlain(cfg, run, events, k - 1);
      assert events[..k][..k - 1] == events[..k - 1];
      assert Does(cfg, run[k - 1], run[k - 1 + 1], events[k - 1].cpu, events[k - 1].action);
    }
  }

  /** After any run, a component's page shows exactly what it would show had no page ever been moved. */
  lemma {:induction false} MemoryTransparency(cfg: Config, run: seq<State>, events: seq<Event>, k: nat, v: nat)
    requires Trace(cfg, run, events) && k <= |events| && Live(cfg, v)
    ensures v < |run[k].mem.frameOf| && run[k].mem.frameOf[v] < |run[k].mem.content|
    ensures See(run[k].mem, v) == PlainMemory(run[0].reference, events[..k])[v]
    ensures v < |run[0].reference| && See(run[0].mem, v) == run[0].reference[v]
  {
    TraceIsRun(cfg, run, events);
    RunIsGood(cfg, run, k);
    ReferenceIsPlain(cfg, run, events, k);
  }

  /** Components never share memory: their pages are in different frames at all times. */
  lemma {:induction false} PagesStayApart(cfg: Config, run: seq<State>, k: nat, u: nat, v: nat)
    requires IsRun(cfg, run) && k < |run| && Live(cfg, u) && Live(cfg, v) && u != v
    ensures u < |run[k].mem.frameOf| && v < |run[k].mem.frameOf| && run[k].mem.frameOf[u] != run[k].mem.frameOf[v]
  {
    RunIsGood(cfg, run, k);
    LivePagesApart(cfg, run[k], u, v);
  }

  // ----- ways -----

  /** A component's page in a frame of way w belongs to the one chunk that w holds, at its place there;
      and the way records that chunk, or is locked, or is being loaded with it. */
  lemma {:induction false} ResidentIsRecorded(cfg: Config, run: seq<State>, k: nat, v: nat, w: nat, j: nat) returns (id: ChunkId)
    requires IsRun(cfg, run) && k < |run| && Live(cfg, v)
    requires w < |cfg.placement| && j < |cfg.placement[w]|
    requires v < |run[k].mem.frameOf| ==> run[k].mem.frameOf[v] == cfg.placement[w][j]
    ensures InChunk(cfg, id, v) && v == ChunkOf(cfg, id).first + j
    ensures w < |run[k].ways|
    ensures var way := run[k].ways[w];
            || way.locked
            || way.record == Some(id)
            || (way.inUse && way.record == None && way.user < |run[k].phase| && Working(run[k].phase[way.user])
                && run[k].phase[way.user].way == w && CurrentId(run[k].phase[way.user]) == id)
  {
    RunIsGood(cfg, run, k);
    var s := run[k];
    assert PageOk(cfg, s, v) && WayOk(cfg, s, w);
    id := s.ways[w].content.value;
    if s.ways[w].inUse {
      assert PhaseOk(cfg, s, s.ways[w].user);
    }
  }

  /** Loaded chunks, whether of one task or of tasks on different CPUs, are recorded in different ways,
      all in use, none of them locked; and nowhere else. */
  lemma {:induction false} WaysAreExclusive(cfg: Config, run: seq<State>, k: nat, c: nat, id: ChunkId, d: nat, other: ChunkId)
    returns (w: nat, x: nat)
    requires IsRun(cfg, run) && k < |run| && c < |run[k].phase| == |run[k].held| && d < |run[k].phase|
    requires Loaded(cfg, run[k], c, id) && Loaded(cfg, run[k], d, other)
    requires c != d || id != other
    ensures w < |run[k].ways| && x < |run[k].ways| && w != x
    ensures run[k].ways[w].record == Some(id) && run[k].ways[w].inUse && !run[k].ways[w].locked && run[k].ways[w].user == c
    ensures run[k].ways[x].record == Some(other) && run[k].ways[x].inUse && !run[k].ways[x].locked && run[k].ways[x].user == d
    ensures forall y :: 0 <= y < |run[k].ways| && y != w ==> run[k].ways[y].record != Some(id)
  {
    RunIsGood(cfg, run, k);
    var s := run[k];
    assert SlotOk(cfg, s, c, id) && SlotOk(cfg, s, d, other);
    w, x := s.slot[id], s.slot[other];
    assert WayOk(cfg, s, w) && WayOk(cfg, s, x);
  }

  /** getLRUWay never picks a way that is in use or locked: such a way stays as it is, and no page
      leaves a way that is in use. */
  lemma {:induction false} VictimIsUnused(cfg: Config, s: State, s': State, c: nat, w: nat, x: nat)
    requires Good(cfg, s) && c < |s.phase| && Miss(cfg, s, s', c, w)
    requires x < |s.ways| && (s.ways[x].inUse || s.ways[x].locked)
    ensures x != w && s'.ways[x] == s.ways[x]
    ensures s.ways[x].inUse ==>
              forall v, j :: 0 <= v < |s.mem.frameOf| && Live(cfg, v) && 0 <= j < |cfg.placement[x]| ==>
                s.mem.frameOf[v] == cfg.placement[x][j] ==> s'.mem.frameOf[v] == cfg.placement[x][j]
  {
    MissMoves(cfg, s, s', c, w);
    assert WayOk(cfg, s, w) && WayOk(cfg, s, x);
    if s.ways[x].inUse {
      assert PhaseOk(cfg, s, s.ways[x].user);
      forall v, j | 0 <= v < |s.mem.frameOf| && Live(cfg, v) && 0 <= j < |cfg.placement[x]| && s.mem.frameOf[v] == cfg.placement[x][j]
        ensures s'.mem.frameOf[v] == cfg.placement[x][j]
      {
        assert PageOk(cfg, s, v);
      }
    }
  }

  // ----- execution -----

  /** Making room sends home no page of a component that executes on CPU d. */
  lemma {:induction false} MissKeepsPages(cfg: Config, s: State, s': State, c: nat, w: nat, d: nat, id: ChunkId, v: nat)
    requires Good(cfg, s) && c < |s.phase| && Miss(cfg, s, s', c, w)
    requires d < |s.phase| && d != c && s.phase[d].Executing? && id.osc in s.held[d] && InChunk(cfg, id, v)
    ensures |s'.mem.frameOf| == |s.mem.frameOf| && v < |s.mem.frameOf| && s'.mem.frameOf[v] == s.mem.frameOf[v]
  {
    MissMoves(cfg, s, s', c, w);
    assert SlotOk(cfg, s, d, id);
  }

  /** No step of another CPU moves a page of a component that executes on CPU d. */
  lemma {:induction false} ExecutionKeepsPages(cfg: Config, s: State, s': State, c: nat, a: Action, d: nat, id: ChunkId, v: nat)
    requires Good(cfg, s) && c < |s.phase| && Does(cfg, s, s', c, a)
    requires d < |s.phase| && d != c && s.phase[d].Executing? && id.osc in s.held[d] && InChunk(cfg, id, v)
    ensures |s'.mem.frameOf| == |s.mem.frameOf| && v < |s.mem.frameOf| && s'.mem.frameOf[v] == s.mem.frameOf[v]
  {
    match a
    case DoMiss(w) => MissKeepsPages(cfg, s, s', c, w, d, id, v);
    case _ => assert PhaseOk(cfg, s, c) && PhaseOk(cfg, s, d);
  }

  /** Nor does it write to one. */
  lemma {:induction false} ExecutionKeepsReference(cfg: Config, s: State, s': State, c: nat, a: Action, d: nat, id: ChunkId, v: nat)
    requires Shape(cfg, s) && HeldDisjoint(s) && c < |s.phase| && Does(cfg, s, s', c, a)
    requires d < |s.phase| && d != c && id.osc in s.held[d] && InChunk(cfg, id, v)
    ensures |s'.reference| == |s.reference| && v < |s.reference| && s'.reference[v] == s.reference[v]
  {
  }

  /** While CPU d executes, no step of another CPU moves or changes a page of d's components. */
  lemma {:induction false} ExecutionIsUndisturbed(cfg: Config, s: State, s': State, c: nat, a: Action, d: nat, id: ChunkId, v: nat)
    requires Good(cfg, s) && c < |s.phase| && Does(cfg, s, s', c, a)
    requires d < |s.phase| && d != c && s.phase[d].Executing? && id.osc in s.held[d] && InChunk(cfg, id, v)
    ensures |s'.mem.frameOf| == |s.mem.frameOf| && v < |s.mem.frameOf|
    ensures s'.mem.frameOf[v] == s.mem.frameOf[v] < |s.mem.content| && Mapped(s'.mem)
    ensures See(s'.mem, v) == See(s.mem, v)
  {
    StepKeepsMemory(cfg, s, s', c, a);
    ExecutionKeepsPages(cfg, s, s', c, a, d, id, v);
    ExecutionKeepsReference(cfg, s, s', c, a, d, id, v);
    assert Live(cfg, v);
  }

  /** Hence the sights of an executing component change by its own writes only, on every run. */
  lemma {:induction false} ExecutionOwnsItsMemory(cfg: Config, run: seq<State>, events: seq<Event>, k: nat, d: nat, id: ChunkId, v: nat)
    requires Trace(cfg, run, events) && k < |events| && d < |run[k].phase|
    requires run[k].phase[d].Executing? && d < |run[k].held| && id.osc in run[k].held[d] && InChunk(cfg, id, v)
    requires events[k].cpu != d
    ensures v < |run[k].mem.frameOf| == |run[k + 1].mem.frameOf| && Mapped(run[k].mem) && Mapped(run[k + 1].mem)
    ensures run[k + 1].mem.frameOf[v] == run[k].mem.frameOf[v] && See(run[k + 1].mem, v) == See(run[k].mem, v)
  {
    TraceIsRun(cfg, run, events);
    RunIsGood(cfg, run, k);
    ExecutionIsUndisturbed(cfg, run[k], run[k + 1], events[k].cpu, events[k].action, d, id, v);
  }
}
