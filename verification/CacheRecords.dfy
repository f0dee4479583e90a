/** The cache management on the way records and in byte addresses, as the source has it, for all CPUs: every
    run of it is a run of the cache machine, so the guarantees of that machine hold for the records. */
module CacheRecords {
  import opened EventTypes
  import opened PageTables
  import opened PagedMemory
  import opened CacheLayout
  import opened CacheRefinement
  import Coloring = CacheColoring
  import Ways = CacheWays
  import M = CacheMachine
  import MG = CacheGuarantees
  import MP = CacheProofs
  import MT = CacheTheorems

  datatype State = State(
    mem: Memory,
    rows: seq<Ways.CacheWay>,    // mCacheWays
    phase: seq<M.Phase>,         // where each CPU is
    held: seq<seq<nat>>          // per CPU: the components of its task
  )

  ghost predicate Shape(x: World, s: State)
  {
    && Placed(x, |s.mem.frameOf|, |s.mem.content|) && Mapped(s.mem)
    && |s.rows| == x.colors.colorCount <= Ways.MAX_CACHE_WAYS && |s.held| == |s.phase|
  }

  // ----- addresses -----

  /** The ranges that preloadSingleOSC cuts component o into. */
  function Ranges(x: World, o: nat): seq<Ways.Range>
    requires x.colors.Valid() && WayPages(x.colors) > 0 && o < |x.components|
  {
    Ways.Chunks(x.components[o].start, x.components[o].end, PAGE_SIZE * WayPages(x.colors))
  }

  /** CPU c preloads and has not come to the end of the component. */
  ghost predicate AtRange(x: World, s: State, c: nat)
    requires Shape(x, s) && c < |s.phase|
  {
    && (s.phase[c].Load? || s.phase[c].Fill? || s.phase[c].Recording?)
    && s.phase[c].todo != [] && s.phase[c].todo[0] < |x.components| && s.phase[c].index < |Ranges(x, s.phase[c].todo[0])|
  }

  ghost function Current(x: World, s: State, c: nat): Ways.Range
    requires Shape(x, s) && c < |s.phase| && AtRange(x, s, c)
  {
    Ranges(x, s.phase[c].todo[0])[s.phase[c].index]
  }

  /** The frames that prefetchDataToWay moves the pages of a range to. */
  function Targets(x: World, r: Ways.Range, w: nat): seq<nat>
    requires x.colors.Valid()
  {
    Coloring.WayFrames(x.colors, x.colorsStart, w, Coloring.PagesBetween(Coloring.PageStart(r.start), r.end))
  }

  /** The pages that evictCacheWay moves home for a record. */
  function RecordedPages(row: Ways.CacheWay): nat {
    Coloring.PagesBetween(row.dataStart, row.dataEnd)
  }

  ghost predicate MovesHome(m: Memory, m': Memory, row: Ways.CacheWay)
  {
    var first, n := row.dataStart / PAGE_SIZE, RecordedPages(row);
    Mapped(m) && first + n <= |m.frameOf| && first + n <= |m.content| && m' == MoveAll(m, first, Coloring.HomeFrames(first, n))
  }

  predicate Owned(x: World, row: Ways.CacheWay, o: nat) {
    o < |x.components| && o < |x.oscs| && Ways.BelongsTo(row, x.oscs[o], x.components[o].start, x.components[o].end)
  }

  // ----- steps -----

  ghost predicate Begin(x: World, s: State, s': State, c: nat, oscs: seq<nat>)
    requires Shape(x, s) && c < |s.phase|
  {
    && s.phase[c].Idle? && oscs != []
    && (forall i :: 0 <= i < |oscs| ==> oscs[i] < |x.components|)
    && (forall i, j :: 0 <= i < j < |oscs| ==> oscs[i] != oscs[j])
    && (forall d, o :: 0 <= d < |s.held| && o in oscs ==> o !in s.held[d])
    && s' == s.(phase := s.phase[c := M.Load(oscs, 0, false)], held := s.held[c := oscs])
  }

  /** getLRUWay returns `way`; a record that has to make room is evicted. */
  ghost predicate Look(x: World, s: State, s': State, c: nat, way: nat)
    requires Shape(x, s) && c < |s.phase|
  {
    && s.phase[c].Load? && AtRange(x, s, c) && s'.held == s.held
    && Ways.Looked(s.rows, s'.rows, Current(x, s, c).start, way)
    && var p := s.phase[c];
       if way >= |s.rows| then
         s'.mem == s.mem && s'.phase == s.phase[c := M.Stuck]
       else if s.rows[way].dataStart == Current(x, s, c).start then
         s'.mem == s.mem && s'.phase == s.phase[c := M.Recording(p.todo, p.index, way, true)]
       else
         && (if s.rows[way].dataStart == 0 then s'.mem == s.mem else MovesHome(s.mem, s'.mem, s.rows[way]))
         && s'.phase == s.phase[c := if p.skip then M.Recording(p.todo, p.index, way, true) else M.Fill(p.todo, p.index, way, 0)]
  }

  /** prefetchDataToWay moves the next page, or is done. */
  ghost predicate Prefetch(x: World, s: State, s': State, c: nat)
    requires Shape(x, s) && c < |s.phase|
  {
    && s.phase[c].Fill? && AtRange(x, s, c)
    && var p, r := s.phase[c], Current(x, s, c);
       var v := r.start / PAGE_SIZE + p.page;
       && p.page < |Targets(x, r, p.way)| && v < |s.mem.frameOf| && Targets(x, r, p.way)[p.page] < |s.mem.content|
       && s' == s.(mem := Move(s.mem, v, Targets(x, r, p.way)[p.page]), phase := s.phase[c := M.Fill(p.todo, p.index, p.way, p.page + 1)])
  }

  ghost predicate PrefetchDone(x: World, s: State, s': State, c: nat)
    requires Shape(x, s) && c < |s.phase|
  {
    && s.phase[c].Fill? && AtRange(x, s, c)
    && var p, r := s.phase[c], Current(x, s, c);
       p.page == |Targets(x, r, p.way)| && s' == s.(phase := s.phase[c := M.Recording(p.todo, p.index, p.way, false)])
  }

  ghost predicate Record(x: World, s: State, s': State, c: nat)
    requires Shape(x, s) && c < |s.phase|
  {
    && s.phase[c].Recording? && AtRange(x, s, c) && s.phase[c].way < |s.rows|
    && var p := s.phase[c];
       s' == s.(rows := s.rows[p.way := Ways.Recorded(s.rows[p.way], x.oscs[p.todo[0]], Current(x, s, c))],
                phase := s.phase[c := M.Load(p.todo, p.index + 1, p.skip)])
  }

  ghost predicate NextComponent(x: World, s: State, s': State, c: nat)
    requires Shape(x, s) && c < |s.phase|
  {
    && s.phase[c].Load? && s.phase[c].todo != [] && s.phase[c].todo[0] < |x.components|
    && s.phase[c].index == |Ranges(x, s.phase[c].todo[0])|
    && s' == s.(phase := s.phase[c := M.Load(s.phase[c].todo[1..], 0, false)])
  }

  /** Component code stores a word in a page of one of its components. */
  ghost predicate Write(x: World, s: State, s': State, c: nat, v: nat, i: nat, value: Word)
    requires Shape(x, s) && c < |s.phase|
  {
    && s.phase[c].Executing? && v < |s.mem.frameOf|
    && (exists o :: o in s.held[c] && o < |x.components| && PageOf(x.components[o], v))
    && i < |See(s.mem, v)|
    && var f := s.mem.frameOf[v];
       s' == s.(mem := s.mem.(content := s.mem.content[f := s.mem.content[f][i := value]]))
  }

  /** evictCacheWay in lookupAndEvictOSC moves the next page of the way's record home. */
  ghost predicate EvictPage(x: World, s: State, s': State, c: nat)
    requires Shape(x, s) && c < |s.phase|
  {
    && s.phase[c].Evict? && s.phase[c].todo != []
    && var p := s.phase[c];
       && p.way < |s.rows| && Owned(x, s.rows[p.way], p.todo[0]) && p.page < RecordedPages(s.rows[p.way])
       && var v := s.rows[p.way].dataStart / PAGE_SIZE + p.page;
          && v < |s.mem.frameOf| && v < |s.mem.content|
          && s' == s.(mem := Move(s.mem, v, v), phase := s.phase[c := M.Evict(p.todo, p.way, p.page + 1)])
  }

  ghost predicate NextWay(x: World, s: State, s': State, c: nat)
    requires Shape(x, s) && c < |s.phase|
  {
    && s.phase[c].Evict? && s.phase[c].todo != []
    && var p := s.phase[c];
       && p.way < |s.rows| && (Owned(x, s.rows[p.way], p.todo[0]) ==> p.page == RecordedPages(s.rows[p.way]))
       && s' == s.(phase := s.phase[c := M.Evict(p.todo, p.way + 1, 0)])
  }

  /** The second loop of lookupAndEvictOSC. */
  ghost predicate Free(x: World, s: State, s': State, c: nat)
    requires Shape(x, s) && c < |s.phase|
  {
    && s.phase[c].Evict? && s.phase[c].todo != [] && s.phase[c].way == |s.rows| && s.phase[c].todo[0] < |x.components|
    && var o := s.phase[c].todo[0];
       && |s'.rows| == |s.rows|
       && (forall w :: 0 <= w < |s.rows| ==>
             s'.rows[w] == Ways.Released(s.rows[w], x.oscs[o], x.components[o].start, x.components[o].end, x.evictAfterUse))
       && s' == s.(rows := s'.rows, phase := s.phase[c := M.Evict(s.phase[c].todo[1..], 0, 0)])
  }

  ghost predicate Does(x: World, s: State, s': State, c: nat, a: M.Action)
    requires Shape(x, s) && c < |s.phase|
  {
    match a
    case DoBegin(oscs) => Begin(x, s, s', c, oscs)
    case DoHit(w) => w < |s.rows| && Look(x, s, s', c, w) && s.rows[w].dataStart == Current(x, s, c).start
    case DoMiss(w) => w < |s.rows| && Look(x, s, s', c, w) && s.rows[w].dataStart != Current(x, s, c).start
    case DoStuck => Look(x, s, s', c, Ways.MAX_CACHE_WAYS)
    case DoFillPage => Prefetch(x, s, s', c)
    case DoFillDone => PrefetchDone(x, s, s', c)
    case DoRecord => Record(x, s, s', c)
    case DoNextComponent => NextComponent(x, s, s', c)
    case DoExecute => s.phase[c].Load? && s.phase[c].todo == [] && s' == s.(phase := s.phase[c := M.Executing])
    case DoWrite(v, i, value) => Write(x, s, s', c, v, i, value)
    case DoStartEvict => s.phase[c].Executing? && s' == s.(phase := s.phase[c := M.Evict(s.held[c], 0, 0)])
    case DoEvictPage => EvictPage(x, s, s', c)
    case DoNextWay => NextWay(x, s, s', c)
    case DoFree => Free(x, s, s', c)
    case DoFinish =>
      s.phase[c].Evict? && s.phase[c].todo == [] && s' == s.(phase := s.phase[c := M.Idle], held := s.held[c := []])
  }

  // ----- the machine's state behind the records -----

  ghost predicate Abstracts(x: World, s: State, m: M.State)
  {
    && Shape(x, s) && M.Shape(ConfigOf(x), m)
    && m.mem == s.mem && m.phase == s.phase && m.held == s.held && Represents(x, s.rows, m.ways)
  }

  lemma {:induction false} RangesAreChunks(x: World, o: nat, j: nat)
    requires x.colors.Valid() && WayPages(x.colors) > 0 && o < |x.components|
    ensures |ConfigOf(x).chunks| == |x.components| && |ConfigOf(x).chunks[o]| == |Ranges(x, o)|
    ensures j < |Ranges(x, o)| ==> M.IsChunk(ConfigOf(x), M.ChunkId(o, j)) && RangeOf(x, M.ChunkId(o, j)) == Ranges(x, o)[j]
  {
  }

  /** evictCacheWay's moves are the machine's. */
  lemma {:induction false} MovesHomeIsHome(x: World, s: State, m: M.State, mem': Memory, w: nat)
    requires Abstracts(x, s, m) && w < |s.rows| && s.rows[w].dataStart != 0 && MovesHome(s.mem, mem', s.rows[w])
    ensures m.ways[w].record.Some? && M.IsChunk(ConfigOf(x), m.ways[w].record.value)
    ensures mem' == M.Home(ConfigOf(x), m, m.ways[w].record.value)
  {
    assert RowIs(x, s.rows[w], m.ways[w]);
    EvictIsHome(x, m, m.ways[w].record.value);
  }

  lemma {:induction false} LookIsStep(x: World, s: State, s': State, m: M.State, c: nat, way: nat)
    returns (a: M.Action, m': M.State)
    requires Abstracts(x, s, m) && c < |s.phase| && Look(x, s, s', c, way)
    ensures M.Does(ConfigOf(x), m, m', c, a) && Abstracts(x, s', m')
    ensures a == if way >= |s.rows| then M.DoStuck
                 else if s.rows[way].dataStart == Current(x, s, c).start then M.DoHit(way) else M.DoMiss(way)
  {
    var p := s.phase[c];
    RangesAreChunks(x, p.todo[0], p.index);
    a, m' := LookupIsStep(x, m, c, s.rows, s'.rows, way);
    MP.StepKeepsShape(ConfigOf(x), m, m', c, a);
    if a.DoMiss? {
      assert RowIs(x, s.rows[way], m.ways[way]);
      if s.rows[way].dataStart != 0 {
        MovesHomeIsHome(x, s, m, s'.mem, way);
      } else if m.ways[way].record.Some? {
        ChunkStart(x, m.ways[way].record.value, |s.mem.frameOf|, |s.mem.content|);
      }
    }
  }

  /** The frames for a range that is being moved are the way's frames of the machine. */
  lemma {:induction false} TargetsArePlacement(x: World, s: State, m: M.State, c: nat)
    requires Abstracts(x, s, m) && MT.Good(ConfigOf(x), m) && c < |s.phase| && s.phase[c].Fill? && AtRange(x, s, c)
    ensures var id, w := M.ChunkId(s.phase[c].todo[0], s.phase[c].index), s.phase[c].way;
            && M.IsChunk(ConfigOf(x), id) && w < |ConfigOf(x).placement|
            && M.ChunkOf(ConfigOf(x), id).first == Current(x, s, c).start / PAGE_SIZE
            && M.ChunkOf(ConfigOf(x), id).count <= |ConfigOf(x).placement[w]|
            && Targets(x, Current(x, s, c), w) == ConfigOf(x).placement[w][..M.ChunkOf(ConfigOf(x), id).count]
  {
    var p := s.phase[c];
    RangesAreChunks(x, p.todo[0], p.index);
    assert MP.PhaseOk(ConfigOf(x), m, c);
    PrefetchTargets(x, M.ChunkId(p.todo[0], p.index), p.way, |s.mem.frameOf|, |s.mem.content|);
  }

  lemma {:induction false} PrefetchIsStep(x: World, s: State, s': State, m: M.State, c: nat) returns (m': M.State)
    requires Abstracts(x, s, m) && MT.Good(ConfigOf(x), m) && c < |s.phase| && Prefetch(x, s, s', c)
    ensures M.FillPage(ConfigOf(x), m, m', c) && Abstracts(x, s', m')
  {
    TargetsArePlacement(x, s, m, c);
    var p := s.phase[c];
    var v := Current(x, s, c).start / PAGE_SIZE + p.page;
    m' := m.(mem := s'.mem, inWay := m.inWay[v := Some(p.way)], phase := s'.phase);
    assert M.InChunk(ConfigOf(x), M.ChunkId(p.todo[0], p.index), v);
  }

  lemma {:induction false} PrefetchDoneIsStep(x: World, s: State, s': State, m: M.State, c: nat) returns (m': M.State)
    requires Abstracts(x, s, m) && MT.Good(ConfigOf(x), m) && c < |s.phase| && PrefetchDone(x, s, s', c)
    ensures M.FillDone(ConfigOf(x), m, m', c) && Abstracts(x, s', m')
  {
    TargetsArePlacement(x, s, m, c);
    m' := m.(phase := s'.phase);
  }

  lemma {:induction false} RecordRowIsStep(x: World, s: State, s': State, m: M.State, c: nat) returns (m': M.State)
    requires Abstracts(x, s, m) && c < |s.phase| && Record(x, s, s', c)
    ensures M.Record(ConfigOf(x), m, m', c) && Abstracts(x, s', m')
  {
    RangesAreChunks(x, s.phase[c].todo[0], s.phase[c].index);
    m' := RecordIsStep(x, m, c, s.rows);
  }

  lemma {:induction false} WriteIsStep(x: World, s: State, s': State, m: M.State, c: nat, v: nat, i: nat, value: Word) returns (m': M.State)
    requires Abstracts(x, s, m) && MT.Good(ConfigOf(x), m) && c < |s.phase| && Write(x, s, s', c, v, i, value)
    ensures M.Write(ConfigOf(x), m, m', c, v, i, value) && Abstracts(x, s', m')
  {
    var o :| o in s.held[c] && o < |x.components| && PageOf(x.components[o], v);
    var j := ChunksCover(x.components[o], x.colors, v);
    assert M.InChunk(ConfigOf(x), M.ChunkId(o, j), v);
    assert M.Live(ConfigOf(x), v);
    m' := m.(mem := s'.mem, reference := m.reference[v := m.reference[v][i := value]]);
  }

  lemma {:induction false} EvictPageIsStep(x: World, s: State, s': State, m: M.State, c: nat) returns (m': M.State)
    requires Abstracts(x, s, m) && c < |s.phase| && EvictPage(x, s, s', c)
    ensures M.EvictPage(ConfigOf(x), m, m', c) && Abstracts(x, s', m')
  {
    var p := s.phase[c];
    assert RowIs(x, s.rows[p.way], m.ways[p.way]);
    BelongsIsBelongs(x, s.rows[p.way], m.ways[p.way], p.todo[0], |s.mem.frameOf|, |s.mem.content|);
    var id := m.ways[p.way].record.value;
    ChunkStart(x, id, |s.mem.frameOf|, |s.mem.content|);
    var v := M.ChunkOf(ConfigOf(x), id).first + p.page;
    m' := m.(mem := s'.mem, inWay := m.inWay[v := None], phase := s'.phase);
    assert M.InChunk(ConfigOf(x), id, v);
  }

  lemma {:induction false} NextWayIsStep(x: World, s: State, s': State, m: M.State, c: nat) returns (m': M.State)
    requires Abstracts(x, s, m) && MT.Good(ConfigOf(x), m) && c < |s.phase| && NextWay(x, s, s', c)
    ensures M.NextWay(ConfigOf(x), m, m', c) && Abstracts(x, s', m')
  {
    var p := s.phase[c];
    assert MP.PhaseOk(ConfigOf(x), m, c) && RowIs(x, s.rows[p.way], m.ways[p.way]);
    BelongsIsBelongs(x, s.rows[p.way], m.ways[p.way], p.todo[0], |s.mem.frameOf|, |s.mem.content|);
    if M.Belongs(m, p.way, p.todo[0]) {
      ChunkStart(x, m.ways[p.way].record.value, |s.mem.frameOf|, |s.mem.content|);
      m' := m.(ways := m.ways[p.way := m.ways[p.way].(content := None)], phase := s'.phase);
    } else {
      m' := m.(phase := s'.phase);
    }
    forall w | 0 <= w < |s.rows| ensures RowIs(x, s.rows[w], m'.ways[w]) {
      assert RowIs(x, s.rows[w], m.ways[w]);
    }
  }

  /** Each step on the records is the machine's step of the same name. */
  lemma {:induction false} StepIsStep(x: World, s: State, s': State, m: M.State, c: nat, a: M.Action) returns (m': M.State)
    requires Abstracts(x, s, m) && MT.Good(ConfigOf(x), m) && c < |s.phase| && Does(x, s, s', c, a)
    ensures M.Does(ConfigOf(x), m, m', c, a) && Abstracts(x, s', m')
  {
    var b;
    match a
    case DoHit(w) => b, m' := LookIsStep(x, s, s', m, c, w);
    case DoMiss(w) => b, m' := LookIsStep(x, s, s', m, c, w);
    case DoStuck => b, m' := LookIsStep(x, s, s', m, c, Ways.MAX_CACHE_WAYS);
    case DoFillPage => m' := PrefetchIsStep(x, s, s', m, c);
    case DoFillDone => m' := PrefetchDoneIsStep(x, s, s', m, c);
    case DoRecord => m' := RecordRowIsStep(x, s, s', m, c);
    case DoNextComponent =>
      RangesAreChunks(x, s.phase[c].todo[0], 0);
      m' := m.(phase := s'.phase);
    case DoWrite(v, i, value) => m' := WriteIsStep(x, s, s', m, c, v, i, value);
    case DoEvictPage => m' := EvictPageIsStep(x, s, s', m, c);
    case DoNextWay => m' := NextWayIsStep(x, s, s', m, c);
    case DoFree => m' := FreeIsStep(x, m, c, s.rows, s'.rows);
    case DoBegin(oscs) => m' := m.(phase := s'.phase, held := s'.held, found := m.found[c := {}]);
    case DoFinish => m' := m.(phase := s'.phase, held := s'.held);
    case _ => m' := m.(phase := s'.phase);
  }

  // ----- runs -----

  /** The records and the memory at start-up: what the machine may start with. */
  ghost predicate Start(x: World, s: State)
    requires Shape(x, s)
  {
    exists m :: M.Init(ConfigOf(x), m) && Abstracts(x, s, m)
  }

  ghost predicate StepAt(x: World, run: seq<State>, events: seq<MG.Event>, i: nat)
  {
    && i < |events| && i + 1 < |run| && Shape(x, run[i]) && events[i].cpu < |run[i].phase|
    && Does(x, run[i], run[i + 1], events[i].cpu, events[i].action)
  }

  ghost predicate IsRun(x: World, run: seq<State>, events: seq<MG.Event>)
  {
    && |run| == |events| + 1 && Shape(x, run[0]) && Start(x, run[0])
    && forall i :: 0 <= i < |events| ==> StepAt(x, run, events, i)
  }

  /** Empty unused ways, idle CPUs and every page in its own frame are such a start. */
  lemma {:induction false} EmptyStart(x: World, s: State)
    requires Shape(x, s) && |s.mem.frameOf| <= |s.mem.content|
    requires forall w :: 0 <= w < |s.rows| ==> s.rows[w].dataStart == 0 && !s.rows[w].inUse
    requires forall c :: 0 <= c < |s.phase| ==> s.phase[c].Idle? && s.held[c] == []
    requires forall v :: 0 <= v < |s.mem.frameOf| ==> s.mem.frameOf[v] == v
    ensures Start(x, s)
  {
    var nobody := M.ChunkId(0, 0);
    var m := M.State(s.mem, Seen(s.mem),
                     seq(|s.rows|, w requires 0 <= w < |s.rows| => M.Way(None, false, s.rows[w].permanentLocked, None, 0, nobody)),
                     s.phase, s.held, seq(|s.mem.frameOf|, _ => None), map[], seq(|s.phase|, _ => {}));
    LayoutIsWellFormed(x.components, x.colors, x.colorsStart, x.evictAfterUse, |s.mem.frameOf|, |s.mem.content|);
    forall w | 0 <= w < |s.rows| ensures RowIs(x, s.rows[w], m.ways[w]) {
    }
    forall v | 0 <= v < |m.inWay| ensures M.PageOk(ConfigOf(x), m, v) {
    }
    assert M.Init(ConfigOf(x), m) && Abstracts(x, s, m);
  }

  /** What programs see, page by page. */
  function Seen(m: Memory): seq<seq<Word>>
    requires Mapped(m)
  {
    seq(|m.frameOf|, v requires 0 <= v < |m.frameOf| => See(m, v))
  }

  ghost predicate AbstractsAll(x: World, run: seq<State>, machine: seq<M.State>)
  {
    |machine| == |run| && forall i :: 0 <= i < |run| ==> Abstracts(x, run[i], machine[i])
  }

  lemma {:induction false} TraceGoesOn(cfg: M.Config, machine: seq<M.State>, events: seq<MG.Event>, e: MG.Event, m': M.State)
    requires MG.Trace(cfg, machine, events) && M.Shape(cfg, machine[|events|]) && e.cpu < |machine[|events|].phase|
    requires M.Does(cfg, machine[|events|], m', e.cpu, e.action)
    ensures MG.Trace(cfg, machine + [m'], events + [e])
  {
    var longer, more := machine + [m'], events + [e];
    forall i | 0 <= i < |more|
      ensures M.Shape(cfg, longer[i]) && more[i].cpu < |longer[i].phase| && M.Does(cfg, longer[i], longer[i + 1], more[i].cpu, more[i].action)
    {
      if i < |events| {
        assert M.Does(cfg, machine[i], machine[i + 1], events[i].cpu, events[i].action);
      }
    }
  }

  lemma {:induction false} PrefixIsRun(x: World, run: seq<State>, events: seq<MG.Event>, n: nat)
    requires IsRun(x, run, events) && n <= |events|
    ensures IsRun(x, run[..n + 1], events[..n])
  {
    var part, some := run[..n + 1], events[..n];
    forall i | 0 <= i < n ensures StepAt(x, part, some, i) {
      assert StepAt(x, run, events, i);
    }
  }

  /** Every run on the records is a run of the cache machine, with the same events, whose states stand behind
      the records all along. */
  lemma {:induction false} RunIsMachineRun(x: World, run: seq<State>, events: seq<MG.Event>) returns (machine: seq<M.State>)
    requires IsRun(x, run, events)
    ensures MG.Trace(ConfigOf(x), machine, events) && AbstractsAll(x, run, machine)
    decreases |events|
  {
    if events == [] {
      var m :| M.Init(ConfigOf(x), m) && Abstracts(x, run[0], m);
      machine := [m];
    } else {
      var n := |events| - 1;
      PrefixIsRun(x, run, events, n);
      machine := RunIsMachineRun(x, run[..n + 1], events[..n]);
      machine := MachineGoesOn(x, run, events, machine);
    }
  }

  lemma {:induction false} MachineGoesOn(x: World, run: seq<State>, events: seq<MG.Event>, machine: seq<M.State>)
    returns (longer: seq<M.State>)
    requires events != [] && |run| == |events| + 1 && StepAt(x, run, events, |events| - 1) && x.colors.Valid() && WayPages(x.colors) > 0
    requires MG.Trace(ConfigOf(x), machine, events[..|events| - 1]) && AbstractsAll(x, run[..|events|], machine)
    ensures MG.Trace(ConfigOf(x), longer, events) && AbstractsAll(x, run, longer)
  {
    var n := |events| - 1;
    assert Abstracts(x, run[..|events|][n], machine[n]);
    MG.TraceIsRun(ConfigOf(x), machine, events[..n]);
    MT.RunIsGood(ConfigOf(x), machine, n);
    var m' := StepIsStep(x, run[n], run[n + 1], machine[n], events[n].cpu, events[n].action);
    TraceGoesOn(ConfigOf(x), machine, events[..n], events[n], m');
    assert events[..n] + [events[n]] == events;
    longer := machine + [m'];
    forall i | 0 <= i < |run| ensures Abstracts(x, run[i], longer[i]) {
      if i <= n {
        assert Abstracts(x, run[..|events|][i], machine[i]);
      }
    }
  }

  // ----- the guarantees, on the records -----

  lemma {:induction false} PlainMemoryByPage(a: seq<seq<Word>>, b: seq<seq<Word>>, events: seq<MG.Event>, v: nat)
    requires |a| == |b| && v < |a| && a[v] == b[v]
    ensures MG.PlainMemory(a, events)[v] == MG.PlainMemory(b, events)[v]
    decreases |events|
  {
    if events != [] {
      PlainMemoryByPage(a, b, events[..|events| - 1], v);
    }
  }

  /** A component's page shows what it would show had no page ever been moved. */
  lemma {:induction false} RecordsAreTransparent(x: World, run: seq<State>, events: seq<MG.Event>, k: nat, o: nat, v: nat)
    requires IsRun(x, run, events) && k <= |events| && o < |x.components| && PageOf(x.components[o], v)
    ensures v < |run[k].mem.frameOf| && run[k].mem.frameOf[v] < |run[k].mem.content| && Mapped(run[0].mem) && v < |run[0].mem.frameOf|
    ensures See(run[k].mem, v) == MG.PlainMemory(Seen(run[0].mem), events[..k])[v]
  {
    var machine := RunIsMachineRun(x, run, events);
    assert Abstracts(x, run[0], machine[0]) && Abstracts(x, run[k], machine[k]);
    ComponentIsLive(x.components, x.colors, x.colorsStart, x.evictAfterUse, o, v);
    MG.MemoryTransparency(ConfigOf(x), machine, events, k, v);
    PlainMemoryByPage(Seen(run[0].mem), machine[0].reference, events[..k], v);
  }

  /** While a CPU executes, every range of its components has a row of its own: in use, unlocked, with the
      component's addresses, and no other row has them. */
  lemma {:induction false} ExecutingHasItsRows(x: World, run: seq<State>, events: seq<MG.Event>, k: nat, c: nat, o: nat, j: nat)
    returns (w: nat)
    requires IsRun(x, run, events) && k <= |events| && c < |run[k].phase| && run[k].phase[c].Executing?
    requires c < |run[k].held| && o in run[k].held[c] && o < |x.components| && j < |Ranges(x, o)|
    ensures w < |run[k].rows| && run[k].rows[w].inUse && !run[k].rows[w].permanentLocked && o < |x.oscs|
    ensures run[k].rows[w].osc == x.oscs[o] && Ways.Range(run[k].rows[w].dataStart, run[k].rows[w].dataEnd) == Ranges(x, o)[j]
    ensures forall y :: 0 <= y < |run[k].rows| && y != w ==> run[k].rows[y].dataStart != Ranges(x, o)[j].start
  {
    var machine := RunIsMachineRun(x, run, events);
    var cfg, m, id := ConfigOf(x), machine[k], M.ChunkId(o, j);
    assert Abstracts(x, run[k], m);
    MG.TraceIsRun(cfg, machine, events);
    MT.RunIsGood(cfg, machine, k);
    RangesAreChunks(x, o, j);
    assert MT.SlotOk(cfg, m, c, id);
    w := m.slot[id];
    assert MP.WayOk(cfg, m, w) && RowIs(x, run[k].rows[w], m.ways[w]);
    forall y | 0 <= y < |run[k].rows| && y != w ensures run[k].rows[y].dataStart != Ranges(x, o)[j].start {
      SameRecords(x, m, run[k].rows, id, y);
    }
  }

  /** Nothing that another CPU does moves or changes a page of an executing component. */
  lemma {:induction false} ExecutingIsLeftAlone(x: World, run: seq<State>, events: seq<MG.Event>, k: nat, d: nat, o: nat, v: nat)
    requires IsRun(x, run, events) && k < |events| && d < |run[k].phase| && run[k].phase[d].Executing? && events[k].cpu != d
    requires d < |run[k].held| && o in run[k].held[d] && o < |x.components| && PageOf(x.components[o], v)
    ensures v < |run[k].mem.frameOf| == |run[k + 1].mem.frameOf| && Mapped(run[k].mem) && Mapped(run[k + 1].mem)
    ensures run[k + 1].mem.frameOf[v] == run[k].mem.frameOf[v] && See(run[k + 1].mem, v) == See(run[k].mem, v)
  {
    var machine := RunIsMachineRun(x, run, events);
    assert Abstracts(x, run[k], machine[k]) && Abstracts(x, run[k + 1], machine[k + 1]);
    var j := ChunksCover(x.components[o], x.colors, v);
    MG.ExecutionOwnsItsMemory(ConfigOf(x), machine, events, k, d, M.ChunkId(o, j), v);
  }
}
