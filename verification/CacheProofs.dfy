/** Invariants of the cache machine. */
module CacheProofs {
  import opened EventTypes
  import opened PagedMemory
  import opened CacheMachine

  lemma {:induction false} StepKeepsShape(cfg: Config, s: State, s': State, c: nat, a: Action)
    requires Shape(cfg, s) && c < |s.phase| && Does(cfg, s, s', c, a)
    ensures Shape(cfg, s') && |s'.phase| == |s.phase| && |s'.inWay| == |s.inWay|
  {
  }

  // ----- memory: every page is where the history says, and shows what it should -----

  ghost predicate MemoryOk(cfg: Config, s: State)
    requires Shape(cfg, s)
  {
    && (forall v :: 0 <= v < |s.inWay| ==> PageOk(cfg, s, v))
    && (forall v :: 0 <= v < |s.inWay| && Live(cfg, v) ==> See(s.mem, v) == s.reference[v])
  }

  /** Two live pages never share a frame. */
  lemma {:induction false} LivePagesApart(cfg: Config, s: State, u: nat, v: nat)
    requires Shape(cfg, s) && u < |s.inWay| && v < |s.inWay| && u != v
    requires Live(cfg, u) && Live(cfg, v) && PageOk(cfg, s, u) && PageOk(cfg, s, v)
    ensures s.mem.frameOf[u] != s.mem.frameOf[v]
  {
  }

  /** No other live page is in the frame that way w has for page v of its chunk. */
  lemma {:induction false} WayFrameFree(cfg: Config, s: State, u: nat, v: nat, w: nat, id: ChunkId)
    requires Shape(cfg, s) && u < |s.inWay| && u != v && Live(cfg, u) && PageOk(cfg, s, u)
    requires w < |s.ways| && s.ways[w].content == Some(id) && InChunk(cfg, id, v)
    ensures v - ChunkOf(cfg, id).first < |cfg.placement[w]|
    ensures s.mem.frameOf[u] != cfg.placement[w][v - ChunkOf(cfg, id).first]
  {
  }

  /** No other live page is in a live page's own frame. */
  lemma {:induction false} OwnFrameFree(cfg: Config, s: State, u: nat, v: nat)
    requires Shape(cfg, s) && u < |s.inWay| && u != v && Live(cfg, u) && PageOk(cfg, s, u) && Live(cfg, v)
    ensures s.mem.frameOf[u] != v
  {
  }

  lemma {:induction false} FillKeepsMemory(cfg: Config, s: State, s': State, c: nat)
    requires Shape(cfg, s) && c < |s.phase| && FillPage(cfg, s, s', c) && MemoryOk(cfg, s)
    requires s.phase[c].way < |s.ways|
    requires s.ways[s.phase[c].way].content == Some(ChunkId(s.phase[c].todo[0], s.phase[c].index))
    ensures Shape(cfg, s') && MemoryOk(cfg, s')
  {
    var Fill(todo, index, w, k) := s.phase[c];
    var id := ChunkId(todo[0], index);
    var v := ChunkOf(cfg, id).first + k;
    assert InChunk(cfg, id, v);
    forall u | 0 <= u < |s.inWay| && Live(cfg, u) ensures See(s'.mem, u) == s'.reference[u] {
      if u != v {
        WayFrameFree(cfg, s, u, v, w, id);
      }
    }
    forall u | 0 <= u < |s'.inWay| ensures PageOk(cfg, s', u) {
      assert PageOk(cfg, s, u);
    }
  }

  lemma {:induction false} EvictKeepsMemory(cfg: Config, s: State, s': State, c: nat)
    requires Shape(cfg, s) && c < |s.phase| && EvictPage(cfg, s, s', c) && MemoryOk(cfg, s)
    ensures Shape(cfg, s') && MemoryOk(cfg, s')
  {
    var id := s.ways[s.phase[c].way].record.value;
    var v := ChunkOf(cfg, id).first + s.phase[c].page;
    assert InChunk(cfg, id, v);
    forall u | 0 <= u < |s.inWay| && Live(cfg, u) ensures See(s'.mem, u) == s'.reference[u] {
      if u != v {
        OwnFrameFree(cfg, s, u, v);
      }
    }
    forall u | 0 <= u < |s'.inWay| ensures PageOk(cfg, s', u) {
      assert PageOk(cfg, s, u);
    }
  }

  lemma {:induction false} WriteKeepsMemory(cfg: Config, s: State, s': State, c: nat, v: nat, i: nat, value: Word)
    requires Shape(cfg, s) && c < |s.phase| && Write(cfg, s, s', c, v, i, value) && MemoryOk(cfg, s)
    ensures Shape(cfg, s') && MemoryOk(cfg, s')
  {
    forall u | 0 <= u < |s.inWay| && Live(cfg, u) ensures See(s'.mem, u) == s'.reference[u] {
      if u != v {
        LivePagesApart(cfg, s, u, v);
      }
    }
    forall u | 0 <= u < |s'.inWay| ensures PageOk(cfg, s', u) {
      assert PageOk(cfg, s, u);
    }
  }

  /** Moving the first j pages of a chunk home. */
  lemma {:induction false} HomeMoves(cfg: Config, s: State, id: ChunkId, j: nat) returns (m: Memory)
    requires Shape(cfg, s) && MemoryOk(cfg, s) && IsChunk(cfg, id) && j <= ChunkOf(cfg, id).count
    requires ChunkOf(cfg, id).first + j <= |s.mem.frameOf| && ChunkOf(cfg, id).first + j <= |s.mem.content|
    ensures m == MoveAll(s.mem, ChunkOf(cfg, id).first, seq(j, k requires 0 <= k => ChunkOf(cfg, id).first + k))
    ensures |m.frameOf| == |s.mem.frameOf| && |m.content| == |s.mem.content| && Mapped(m)
    ensures forall u :: 0 <= u < |m.frameOf| ==>
              m.frameOf[u] == if ChunkOf(cfg, id).first <= u < ChunkOf(cfg, id).first + j then u else s.mem.frameOf[u]
    ensures forall u :: 0 <= u < |m.frameOf| && Live(cfg, u) ==> See(m, u) == See(s.mem, u)
  {
    var first := ChunkOf(cfg, id).first;
    var targets := seq(j, k requires 0 <= k => first + k);
    m := MoveAll(s.mem, first, targets);
    if j > 0 {
      var v := first + (j - 1);
      assert InChunk(cfg, id, v);
      var m0 := HomeMoves(cfg, s, id, j - 1);
      assert targets[..j - 1] == seq(j - 1, k requires 0 <= k => first + k);
      forall u | 0 <= u < |m.frameOf| && Live(cfg, u) ensures See(m, u) == See(s.mem, u) {
        if u != v {
          OwnFrameFree(cfg, s, u, v);
          assert m0.frameOf[u] != v;
        }
      }
    }
  }

  /** What a miss moves: the pages its victim recorded, to their own frames; all pages look the same. */
  lemma {:induction false} MissMoves(cfg: Config, s: State, s': State, c: nat, w: nat)
    requires Shape(cfg, s) && c < |s.phase| && Miss(cfg, s, s', c, w) && MemoryOk(cfg, s)
    ensures |s'.mem.frameOf| == |s.mem.frameOf| && |s'.mem.content| == |s.mem.content| && Mapped(s'.mem)
    ensures forall v :: 0 <= v < |s.mem.frameOf| ==>
              s'.mem.frameOf[v] ==
              if s.ways[w].record.Some? && InChunk(cfg, s.ways[w].record.value, v) then v else s.mem.frameOf[v]
    ensures forall v :: 0 <= v < |s.mem.frameOf| && Live(cfg, v) ==> See(s'.mem, v) == See(s.mem, v)
  {
    if s.ways[w].record.Some? {
      var id := s.ways[w].record.value;
      var n := ChunkOf(cfg, id).count;
      if n > 0 {
        assert InChunk(cfg, id, ChunkOf(cfg, id).first + (n - 1));
        var m := HomeMoves(cfg, s, id, n);
      }
    }
  }

  lemma {:induction false} MissKeepsMemory(cfg: Config, s: State, s': State, c: nat, w: nat)
    requires Shape(cfg, s) && c < |s.phase| && Miss(cfg, s, s', c, w) && MemoryOk(cfg, s)
    requires s.ways[w].record.Some? ==> s.ways[w].content == None || s.ways[w].content == s.ways[w].record
    requires s.ways[w].record == None ==> s.ways[w].content == None
    ensures Shape(cfg, s') && MemoryOk(cfg, s')
  {
    MissMoves(cfg, s, s', c, w);
    forall v | 0 <= v < |s'.inWay| ensures PageOk(cfg, s', v) {
      assert PageOk(cfg, s, v);
    }
  }

  // ----- ways, records and components -----

  ghost predicate HeldDisjoint(s: State)
  {
    forall c, d, o :: 0 <= c < |s.held| && 0 <= d < |s.held| && c != d && o in s.held[c] ==> o !in s.held[d]
  }

  /** The components a CPU has still to load, or to evict. */
  function Todo(p: Phase): seq<nat> {
    match p
    case Load(todo, _, _) => todo
    case Fill(todo, _, _, _) => todo
    case Recording(todo, _, _, _) => todo
    case Evict(todo, _, _) => todo
    case _ => []
  }

  /** The chunk a CPU is working on after getLRUWay, and its way. */
  predicate Working(p: Phase) {
    (p.Fill? || p.Recording?) && p.todo != []
  }

  function CurrentId(p: Phase): ChunkId
    requires Working(p)
  {
    ChunkId(p.todo[0], p.index)
  }

  /** Distinct existing components, all of them among those held. */
  ghost predicate Among(cfg: Config, todo: seq<nat>, held: seq<nat>)
  {
    && (forall i :: 0 <= i < |todo| ==> todo[i] in held && todo[i] < |cfg.chunks|)
    && (forall i, j :: 0 <= i < j < |todo| ==> todo[i] != todo[j])
  }

  lemma {:induction false} TailAmong(cfg: Config, todo: seq<nat>, held: seq<nat>)
    requires todo != [] && Among(cfg, todo, held)
    ensures Among(cfg, todo[1..], held) && todo[0] !in todo[1..]
  {
  }

  ghost predicate PhaseOk(cfg: Config, s: State, c: nat)
    requires Shape(cfg, s) && c < |s.phase|
  {
    var p := s.phase[c];
    && (p.Idle? ==> s.held[c] == [])
    && Among(cfg, s.held[c], s.held[c])
    && Among(cfg, Todo(p), s.held[c])
    && (p.Load? && p.todo != [] ==> p.index <= |cfg.chunks[p.todo[0]]|)
    && (p.Fill? || p.Recording? ==>
          && Working(p) && IsChunk(cfg, CurrentId(p)) && p.way < |s.ways|
          && var w := s.ways[p.way];
             && w.inUse && !w.locked && w.user == c && w.tag == CurrentId(p)
             && (w.record == Some(CurrentId(p)) || (w.record == None && NotRecorded(s, CurrentId(p))))
             && (p.Fill? ==> w.record == None && w.content == Some(CurrentId(p)))
             && (w.content.Some? ==> w.content == Some(CurrentId(p))))
    && (p.Evict? ==> p.way <= |s.ways|)
  }

  ghost predicate WayOk(cfg: Config, s: State, w: nat)
    requires Shape(cfg, s) && w < |s.ways|
  {
    var way := s.ways[w];
    && (way.locked ==> way.record == None && !way.inUse)
    && (way.record.Some? ==> IsChunk(cfg, way.record.value) && (way.content.Some? ==> way.content == way.record))
    && (!way.locked && !way.inUse && way.record == None ==> way.content == None)
    && (way.inUse ==>
          && way.user < |s.phase| && IsChunk(cfg, way.tag) && way.tag.osc in s.held[way.user]
          && (way.record.Some? ==> way.record == Some(way.tag))
          && (way.record == None ==> Working(s.phase[way.user]) && s.phase[way.user].way == w)
          && (s.phase[way.user].Evict? ==> way.tag.osc in s.phase[way.user].todo))
  }

  ghost predicate RecordsDistinct(s: State)
  {
    forall w, x :: 0 <= w < |s.ways| && 0 <= x < |s.ways| && w != x && s.ways[w].record.Some? ==>
      s.ways[w].record != s.ways[x].record
  }

  ghost predicate WaysOk(cfg: Config, s: State)
    requires Shape(cfg, s)
  {
    && HeldDisjoint(s)
    && RecordsDistinct(s)
    && (forall c :: 0 <= c < |s.phase| ==> PhaseOk(cfg, s, c))
    && (forall w :: 0 <= w < |s.ways| ==> WayOk(cfg, s, w))
  }

  /** CPUs' own ways differ: a way has one user. */
  lemma {:induction false} WorkingWaysDiffer(cfg: Config, s: State, c: nat, d: nat)
    requires Shape(cfg, s) && c < |s.phase| && d < |s.phase| && c != d && PhaseOk(cfg, s, c) && PhaseOk(cfg, s, d)
    requires Working(s.phase[c]) && Working(s.phase[d])
    ensures s.phase[c].way != s.phase[d].way
  {
  }

  /** Steps that touch neither ways nor held components. */
  lemma {:induction false} QuietFrame(cfg: Config, s: State, s': State, c: nat, a: Action)
    requires Shape(cfg, s) && c < |s.phase| && Does(cfg, s, s', c, a)
    requires a.DoStuck? || a.DoFillPage? || a.DoFillDone? || a.DoNextComponent? || a.DoExecute? || a.DoWrite?
             || a.DoStartEvict? || a.DoEvictPage?
    ensures s'.ways == s.ways && s'.held == s.held && |s'.phase| == |s.phase| && s'.phase == s.phase[c := s'.phase[c]]
    ensures Working(s.phase[c]) ==> Working(s'.phase[c]) && s'.phase[c].way == s.phase[c].way
    ensures s'.phase[c].Evict? ==> s'.phase[c].todo == if s.phase[c].Evict? then s.phase[c].todo else s.held[c]
  {
  }

  lemma {:induction false} MoveKeepsOwnPhase(cfg: Config, s: State, s': State, c: nat, a: Action)
    requires Shape(cfg, s) && Shape(cfg, s') && c < |s.phase| && Does(cfg, s, s', c, a) && PhaseOk(cfg, s, c)
    requires a.DoFillPage? || a.DoFillDone? || a.DoEvictPage?
    ensures c < |s'.phase| && PhaseOk(cfg, s', c)
  {
    QuietFrame(cfg, s, s', c, a);
  }

  lemma {:induction false} QuietKeepsOwnPhase(cfg: Config, s: State, s': State, c: nat, a: Action)
    requires Shape(cfg, s) && c < |s.phase| && Does(cfg, s, s', c, a) && PhaseOk(cfg, s, c)
    requires a.DoStuck? || a.DoFillPage? || a.DoFillDone? || a.DoNextComponent? || a.DoExecute? || a.DoWrite?
             || a.DoStartEvict? || a.DoEvictPage?
    ensures Shape(cfg, s') && c < |s'.phase| && PhaseOk(cfg, s', c)
  {
    StepKeepsShape(cfg, s, s', c, a);
    if a.DoFillPage? || a.DoFillDone? || a.DoEvictPage? {
      MoveKeepsOwnPhase(cfg, s, s', c, a);
    } else {
      QuietFrame(cfg, s, s', c, a);
      if a.DoNextComponent? {
        TailAmong(cfg, s.phase[c].todo, s.held[c]);
      }
    }
  }

  lemma {:induction false} QuietKeepsWays(cfg: Config, s: State, s': State, c: nat, a: Action)
    requires Shape(cfg, s) && c < |s.phase| && Does(cfg, s, s', c, a) && WaysOk(cfg, s)
    requires a.DoStuck? || a.DoFillPage? || a.DoFillDone? || a.DoNextComponent? || a.DoExecute? || a.DoWrite?
             || a.DoStartEvict? || a.DoEvictPage?
    ensures Shape(cfg, s') && WaysOk(cfg, s')
  {
    StepKeepsShape(cfg, s, s', c, a);
    QuietFrame(cfg, s, s', c, a);
    QuietKeepsOwnPhase(cfg, s, s', c, a);
    forall d | 0 <= d < |s'.phase| ensures PhaseOk(cfg, s', d) {
      assert PhaseOk(cfg, s, d);
    }
    forall w | 0 <= w < |s'.ways| ensures WayOk(cfg, s', w) {
      assert WayOk(cfg, s, w);
    }
  }

  /** A CPU takes or gives back its components. */
  lemma {:induction false} HoldKeepsWays(cfg: Config, s: State, s': State, c: nat, a: Action)
    requires Shape(cfg, s) && c < |s.phase| && Does(cfg, s, s', c, a) && WaysOk(cfg, s)
    requires a.DoBegin?
    ensures Shape(cfg, s') && WaysOk(cfg, s')
  {
    StepKeepsShape(cfg, s, s', c, a);
    assert PhaseOk(cfg, s, c);
    forall d | 0 <= d < |s'.phase| ensures PhaseOk(cfg, s', d) {
      assert PhaseOk(cfg, s, d);
    }
    forall w | 0 <= w < |s'.ways| ensures WayOk(cfg, s', w) {
      assert WayOk(cfg, s, w);
    }
  }

  /** A hit or a miss gives CPU c an unused way, or one it already uses for this chunk. */
  lemma {:induction false} ChoiceIsOwn(cfg: Config, s: State, s': State, c: nat, a: Action)
    requires Shape(cfg, s) && c < |s.phase| && Does(cfg, s, s', c, a) && WaysOk(cfg, s) && (a.DoHit? || a.DoMiss?)
    ensures a.w < |s.ways| && !s.ways[a.w].locked && (s.ways[a.w].inUse ==> s.ways[a.w].user == c)
    ensures forall d :: 0 <= d < |s.phase| && Working(s.phase[d]) ==> d != c && s.phase[d].way != a.w
  {
    assert WayOk(cfg, s, a.w) && PhaseOk(cfg, s, c);
    forall d | 0 <= d < |s.phase| && Working(s.phase[d]) ensures d != c && s.phase[d].way != a.w {
      assert PhaseOk(cfg, s, d);
    }
  }

  lemma {:induction false} TakeKeepsOwnPhase(cfg: Config, s: State, s': State, c: nat, a: Action)
    requires Shape(cfg, s) && c < |s.phase| && Does(cfg, s, s', c, a) && WaysOk(cfg, s) && (a.DoHit? || a.DoMiss?)
    ensures Shape(cfg, s') && |s'.phase| == |s.phase| && PhaseOk(cfg, s', c)
  {
    StepKeepsShape(cfg, s, s', c, a);
    assert PhaseOk(cfg, s, c) && WayOk(cfg, s, a.w);
  }

  lemma {:induction false} TakeKeepsOtherPhase(cfg: Config, s: State, s': State, c: nat, a: Action, d: nat)
    requires Shape(cfg, s) && c < |s.phase| && Does(cfg, s, s', c, a) && WaysOk(cfg, s) && (a.DoHit? || a.DoMiss?)
    requires d < |s.phase| && d != c
    ensures Shape(cfg, s') && |s'.phase| == |s.phase| && PhaseOk(cfg, s', d)
  {
    StepKeepsShape(cfg, s, s', c, a);
    ChoiceIsOwn(cfg, s, s', c, a);
    TakeTouchesOneWay(cfg, s, s', c, a);
    assert PhaseOk(cfg, s, d);
  }

  lemma {:induction false} TakeTouchesOneWay(cfg: Config, s: State, s': State, c: nat, a: Action)
    requires Shape(cfg, s) && c < |s.phase| && Does(cfg, s, s', c, a) && (a.DoHit? || a.DoMiss?)
    ensures |s'.ways| == |s.ways| && |s'.phase| == |s.phase| && s'.held == s.held
    ensures forall d :: 0 <= d < |s.phase| && d != c ==> s'.phase[d] == s.phase[d]
    ensures forall w :: 0 <= w < |s.ways| && w != a.w ==> s'.ways[w] == s.ways[w]
    ensures forall w :: 0 <= w < |s.ways| && s'.ways[w].record.Some? ==> s'.ways[w].record == s.ways[w].record
  {
  }

  lemma {:induction false} TakeKeepsWays(cfg: Config, s: State, s': State, c: nat, a: Action)
    requires Shape(cfg, s) && c < |s.phase| && Does(cfg, s, s', c, a) && WaysOk(cfg, s) && (a.DoHit? || a.DoMiss?)
    ensures Shape(cfg, s') && WaysOk(cfg, s')
  {
    StepKeepsShape(cfg, s, s', c, a);
    ChoiceIsOwn(cfg, s, s', c, a);
    forall d | 0 <= d < |s'.phase| ensures PhaseOk(cfg, s', d) {
      if d == c {
        TakeKeepsOwnPhase(cfg, s, s', c, a);
      } else {
        TakeKeepsOtherPhase(cfg, s, s', c, a, d);
      }
    }
    forall x | 0 <= x < |s'.ways| ensures WayOk(cfg, s', x) {
      assert WayOk(cfg, s, x) && PhaseOk(cfg, s, c);
    }
  }

  lemma {:induction false} RecordKeepsWays(cfg: Config, s: State, s': State, c: nat, a: Action)
    requires Shape(cfg, s) && c < |s.phase| && Does(cfg, s, s', c, a) && WaysOk(cfg, s) && a.DoRecord?
    ensures Shape(cfg, s') && WaysOk(cfg, s')
  {
    StepKeepsShape(cfg, s, s', c, a);
    assert PhaseOk(cfg, s, c);
    forall d | 0 <= d < |s'.phase| ensures PhaseOk(cfg, s', d) {
      assert PhaseOk(cfg, s, d);
      if d != c && Working(s.phase[d]) {
        WorkingWaysDiffer(cfg, s, c, d);
        assert s.phase[d].todo[0] in s.held[d] && s.phase[c].todo[0] in s.held[c];
      }
    }
    forall w | 0 <= w < |s'.ways| ensures WayOk(cfg, s', w) {
      assert WayOk(cfg, s, w);
    }
  }

  lemma {:induction false} NextWayKeepsWays(cfg: Config, s: State, s': State, c: nat, a: Action)
    requires Shape(cfg, s) && c < |s.phase| && Does(cfg, s, s', c, a) && WaysOk(cfg, s) && a.DoNextWay?
    ensures Shape(cfg, s') && WaysOk(cfg, s')
  {
    StepKeepsShape(cfg, s, s', c, a);
    forall d | 0 <= d < |s'.phase| ensures PhaseOk(cfg, s', d) {
      assert PhaseOk(cfg, s, d);
    }
    forall w | 0 <= w < |s'.ways| ensures WayOk(cfg, s', w) {
      assert WayOk(cfg, s, w);
    }
  }

  // ----- progress of an eviction -----

  ghost predicate EvictOk(cfg: Config, s: State, c: nat)
    requires Shape(cfg, s) && c < |s.phase|
  {
    s.phase[c].Evict? && s.phase[c].todo != [] && s.phase[c].way <= |s.ways| ==>
      var Evict(todo, w, k) := s.phase[c];
      && (forall x :: 0 <= x < w && Belongs(s, x, todo[0]) ==> s.ways[x].content == None)
      && (w < |s.ways| && Belongs(s, w, todo[0]) ==> PagesGone(cfg, s, s.ways[w].record.value, w, k))
  }

  /** The first k pages of the chunk are not in way w. */
  ghost predicate PagesGone(cfg: Config, s: State, id: ChunkId, w: nat, k: nat)
    requires Shape(cfg, s)
  {
    forall v :: 0 <= v < |s.inWay| && InChunk(cfg, id, v) && v < ChunkOf(cfg, id).first + k ==> s.inWay[v] != Some(w)
  }

  lemma {:induction false} FreeKeepsWay(cfg: Config, s: State, s': State, c: nat, a: Action, w: nat)
    requires Shape(cfg, s) && c < |s.phase| && Does(cfg, s, s', c, a) && WaysOk(cfg, s) && a.DoFree?
    requires EvictOk(cfg, s, c) && w < |s.ways|
    ensures Shape(cfg, s') && w < |s'.ways| && WayOk(cfg, s', w)
  {
    StepKeepsShape(cfg, s, s', c, a);
    assert PhaseOk(cfg, s, c) && WayOk(cfg, s, w);
    TailAmong(cfg, s.phase[c].todo, s.held[c]);
  }

  lemma {:induction false} FreeKeepsPhase(cfg: Config, s: State, s': State, c: nat, a: Action, d: nat)
    requires Shape(cfg, s) && c < |s.phase| && Does(cfg, s, s', c, a) && WaysOk(cfg, s) && a.DoFree?
    requires d < |s.phase|
    ensures Shape(cfg, s') && d < |s'.phase| && PhaseOk(cfg, s', d)
  {
    StepKeepsShape(cfg, s, s', c, a);
    assert PhaseOk(cfg, s, c) && PhaseOk(cfg, s, d);
    TailAmong(cfg, s.phase[c].todo, s.held[c]);
  }

  lemma {:induction false} FreeKeepsWays(cfg: Config, s: State, s': State, c: nat, a: Action)
    requires Shape(cfg, s) && c < |s.phase| && Does(cfg, s, s', c, a) && WaysOk(cfg, s) && a.DoFree?
    requires EvictOk(cfg, s, c)
    ensures Shape(cfg, s') && WaysOk(cfg, s')
  {
    StepKeepsShape(cfg, s, s', c, a);
    forall d | 0 <= d < |s'.phase| ensures PhaseOk(cfg, s', d) {
      FreeKeepsPhase(cfg, s, s', c, a, d);
    }
    forall w | 0 <= w < |s'.ways| ensures WayOk(cfg, s', w) {
      FreeKeepsWay(cfg, s, s', c, a, w);
    }
  }

  lemma {:induction false} FinishKeepsWays(cfg: Config, s: State, s': State, c: nat, a: Action)
    requires Shape(cfg, s) && c < |s.phase| && Does(cfg, s, s', c, a) && WaysOk(cfg, s) && a.DoFinish?
    ensures Shape(cfg, s') && WaysOk(cfg, s')
  {
    StepKeepsShape(cfg, s, s', c, a);
    forall d | 0 <= d < |s'.phase| ensures PhaseOk(cfg, s', d) {
      assert PhaseOk(cfg, s, d);
    }
    forall w | 0 <= w < |s'.ways| ensures WayOk(cfg, s', w) {
      assert WayOk(cfg, s, w);
    }
  }
}
