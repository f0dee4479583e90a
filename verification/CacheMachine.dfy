/** Preloading, executing and evicting components on all CPUs, as one machine over paged memory.

    A CPU takes the components of a task (disjoint from those of every other CPU, which the dispatcher
    guarantees), gets a cache way for each chunk, moves the chunk's pages into the way's frames one by
    one, executes, moves the pages back one by one and frees the ways.  The regions under mLock, the
    choice of a way with the eviction of its old pages and the freeing of ways, are single steps.  */
module CacheMachine {
  import opened EventTypes
  import opened PagedMemory

  /** A chunk of a component: `count` virtual pages from `first` on. */
  datatype Chunk = Chunk(first: nat, count: nat)
  datatype ChunkId = ChunkId(osc: nat, index: nat)

  datatype Config = Config(
    chunks: seq<seq<Chunk>>,     // per component
    placement: seq<seq<nat>>,    // per way, the frames its pages go to
    evictAfterUse: bool          // CONFIG_CACHE_CONTROL_EVICT_AFTER_USE
  )

  predicate IsChunk(cfg: Config, id: ChunkId) {
    id.osc < |cfg.chunks| && id.index < |cfg.chunks[id.osc]|
  }

  function ChunkOf(cfg: Config, id: ChunkId): Chunk
    requires IsChunk(cfg, id)
  {
    cfg.chunks[id.osc][id.index]
  }

  predicate InChunk(cfg: Config, id: ChunkId, v: nat) {
    IsChunk(cfg, id) && ChunkOf(cfg, id).first <= v < ChunkOf(cfg, id).first + ChunkOf(cfg, id).count
  }

  /** A page of some component. */
  ghost predicate Live(cfg: Config, v: nat)
  {
    exists id: ChunkId :: InChunk(cfg, id, v)
  }

  /** Chunks are disjoint, ways are large enough, and the ways' frames are distinct and lie outside the
      components' own frames. */
  ghost predicate WellFormed(cfg: Config, pages: nat, frames: nat)
  {
    && (forall id1: ChunkId, id2: ChunkId, v: nat :: InChunk(cfg, id1, v) && InChunk(cfg, id2, v) ==> id1 == id2)
    && (forall id: ChunkId, v: nat :: InChunk(cfg, id, v) ==> v < pages && v < frames)
    && (forall id: ChunkId, w :: IsChunk(cfg, id) && 0 <= w < |cfg.placement| ==> ChunkOf(cfg, id).count <= |cfg.placement[w]|)
    && (forall w, k :: 0 <= w < |cfg.placement| && 0 <= k < |cfg.placement[w]| ==>
          cfg.placement[w][k] < frames && !Live(cfg, cfg.placement[w][k]))
    && (forall w1, k1, w2, k2 ::
          && 0 <= w1 < |cfg.placement| && 0 <= k1 < |cfg.placement[w1]|
          && 0 <= w2 < |cfg.placement| && 0 <= k2 < |cfg.placement[w2]|
          && cfg.placement[w1][k1] == cfg.placement[w2][k2] ==>
            w1 == w2 && k1 == k2)
  }

  datatype Way = Way(
    record: Option<ChunkId>,    // dataStart, None when it is 0
    inUse: bool,
    locked: bool,               // permanentLocked
    content: Option<ChunkId>,   // history: the chunk whose pages may be in the way's frames
    user: nat,                  // history: the CPU that uses the way
    tag: ChunkId                // history: the chunk it uses the way for
  )

  datatype Phase =
    | Idle
    | Load(todo: seq<nat>, index: nat, skip: bool)                   // about to call getLRUWay
    | Fill(todo: seq<nat>, index: nat, way: nat, page: nat)          // prefetchDataToWay
    | Recording(todo: seq<nat>, index: nat, way: nat, skip: bool)    // about to write the record
    | Executing
    | Evict(todo: seq<nat>, way: nat, page: nat)                     // first loop of lookupAndEvictOSC
    | Stuck                                                          // "did not find a free cache way"

  datatype State = State(
    mem: Memory,
    reference: seq<seq<Word>>,       // history: what an unmoved memory would hold, per virtual page
    ways: seq<Way>,
    phase: seq<Phase>,
    held: seq<seq<nat>>,             // per CPU: the components of its task
    inWay: seq<Option<nat>>,         // history: per virtual page, the way it is in
    slot: map<ChunkId, nat>,         // history: the way that last got the chunk
    found: seq<set<ChunkId>>         // history: per CPU, the chunks found recorded in this activation
  )

  ghost predicate Shape(cfg: Config, s: State)
  {
    && |s.ways| == |cfg.placement|
    && |s.held| == |s.found| == |s.phase|
    && |s.reference| == |s.mem.frameOf| == |s.inWay|
    && Mapped(s.mem)
    && WellFormed(cfg, |s.mem.frameOf|, |s.mem.content|)
  }

  predicate Eligible(w: Way) {
    !w.locked && !w.inUse
  }

  ghost predicate NotRecorded(s: State, id: ChunkId)
  {
    forall w :: 0 <= w < |s.ways| ==> s.ways[w].record != Some(id)
  }

  // ----- steps -----

  datatype Action =
    | DoBegin(oscs: seq<nat>) | DoHit(w: nat) | DoMiss(w: nat) | DoStuck | DoFillPage | DoFillDone | DoRecord
    | DoNextComponent | DoExecute | DoWrite(v: nat, i: nat, value: Word) | DoStartEvict | DoEvictPage | DoNextWay
    | DoFree | DoFinish

  /** activateOSC: the dispatcher has locked these components for CPU c. */
  ghost predicate Begin(cfg: Config, s: State, s': State, c: nat, oscs: seq<nat>)
    requires Shape(cfg, s) && c < |s.phase|
  {
    && s.phase[c].Idle? && oscs != []
    && (forall i :: 0 <= i < |oscs| ==> oscs[i] < |cfg.chunks|)
    && (forall i, j :: 0 <= i < j < |oscs| ==> oscs[i] != oscs[j])
    && (forall d, o :: 0 <= d < |s.held| && o in oscs ==> o !in s.held[d])
    && s' == s.(phase := s.phase[c := Load(oscs, 0, false)], held := s.held[c := oscs], found := s.found[c := {}])
  }

  ghost predicate AtChunk(cfg: Config, s: State, c: nat)
    requires c < |s.phase|
  {
    s.phase[c].Load? && s.phase[c].todo != [] && IsChunk(cfg, ChunkId(s.phase[c].todo[0], s.phase[c].index))
  }

  /** getLRUWay finds the chunk recorded in way w. */
  ghost predicate Hit(cfg: Config, s: State, s': State, c: nat, w: nat)
    requires Shape(cfg, s) && c < |s.phase|
  {
    && AtChunk(cfg, s, c) && w < |s.ways|
    && var Load(todo, index, skip) := s.phase[c];
       var id := ChunkId(todo[0], index);
       && s.ways[w].record == Some(id)
       && s' == s.(ways := s.ways[w := s.ways[w].(inUse := true, user := c, tag := id)],
                   phase := s.phase[c := Recording(todo, index, w, true)], found := s.found[c := s.found[c] + {id}])
  }

  /** getLRUWay picks an eligible way and moves the pages it records back home. */
  ghost predicate Miss(cfg: Config, s: State, s': State, c: nat, w: nat)
    requires Shape(cfg, s) && c < |s.phase|
  {
    && AtChunk(cfg, s, c) && w < |s.ways| && Eligible(s.ways[w])
    && var Load(todo, index, skip) := s.phase[c];
       var id := ChunkId(todo[0], index);
       var recorded := s.ways[w].record;
       && NotRecorded(s, id)
       && (recorded.Some? ==> IsChunk(cfg, recorded.value))
       && s' == s.(mem := if recorded.Some? then Home(cfg, s, recorded.value) else s.mem,
                   inWay := if recorded.Some? then SentHome(cfg, s, recorded.value) else s.inWay,
                   ways := s.ways[w := s.ways[w].(record := None, inUse := true, user := c, tag := id,
                                                   content := if skip then None else Some(id))],
                   phase := s.phase[c := if skip then Recording(todo, index, w, true) else Fill(todo, index, w, 0)])
  }

  /** evictCacheWay for a chunk: all its pages go back to their own frames. */
  ghost function Home(cfg: Config, s: State, id: ChunkId): Memory
    requires Shape(cfg, s) && IsChunk(cfg, id)
  {
    var c := ChunkOf(cfg, id);
    assert c.count > 0 ==> InChunk(cfg, id, c.first + (c.count - 1));
    if c.count == 0 then s.mem else MoveAll(s.mem, c.first, seq(c.count, k requires 0 <= k => c.first + k))
  }

  function SentHome(cfg: Config, s: State, id: ChunkId): seq<Option<nat>> {
    seq(|s.inWay|, v requires 0 <= v < |s.inWay| => if InChunk(cfg, id, v) then None else s.inWay[v])
  }

  /** getLRUWay has no way to offer: the source stops here. */
  ghost predicate GetStuck(cfg: Config, s: State, s': State, c: nat)
    requires Shape(cfg, s) && c < |s.phase|
  {
    && AtChunk(cfg, s, c)
    && NotRecorded(s, ChunkId(s.phase[c].todo[0], s.phase[c].index))
    && (forall w :: 0 <= w < |s.ways| ==> !Eligible(s.ways[w]))
    && s' == s.(phase := s.phase[c := Stuck])
  }

  /** prefetchDataToWay moves the next page into the way's frames. */
  ghost predicate FillPage(cfg: Config, s: State, s': State, c: nat)
    requires Shape(cfg, s) && c < |s.phase|
  {
    && s.phase[c].Fill? && s.phase[c].todo != []
    && var Fill(todo, index, w, k) := s.phase[c];
       var id := ChunkId(todo[0], index);
       && InChunk(cfg, id, ChunkOfOr(cfg, id).first + k) && w < |cfg.placement| && k < |cfg.placement[w]|
       && var v := ChunkOf(cfg, id).first + k;
          s' == s.(mem := Move(s.mem, v, cfg.placement[w][k]), inWay := s.inWay[v := Some(w)],
                   phase := s.phase[c := Fill(todo, index, w, k + 1)])
  }

  function ChunkOfOr(cfg: Config, id: ChunkId): Chunk {
    if IsChunk(cfg, id) then ChunkOf(cfg, id) else Chunk(0, 0)
  }

  ghost predicate FillDone(cfg: Config, s: State, s': State, c: nat)
    requires Shape(cfg, s) && c < |s.phase|
  {
    && s.phase[c].Fill? && s.phase[c].todo != []
    && var Fill(todo, index, w, k) := s.phase[c];
       && k == ChunkOfOr(cfg, ChunkId(todo[0], index)).count
       && s' == s.(phase := s.phase[c := Recording(todo, index, w, false)])
  }

  /** preloadSingleOSC writes the record and goes on with the next chunk. */
  ghost predicate Record(cfg: Config, s: State, s': State, c: nat)
    requires Shape(cfg, s) && c < |s.phase|
  {
    && s.phase[c].Recording? && s.phase[c].todo != []
    && var Recording(todo, index, w, skip) := s.phase[c];
       var id := ChunkId(todo[0], index);
       && w < |s.ways|
       && s' == s.(ways := s.ways[w := s.ways[w].(record := Some(id))],
                   slot := s.slot[id := w],
                   phase := s.phase[c := Load(todo, index + 1, skip)])
  }

  ghost predicate NextComponent(cfg: Config, s: State, s': State, c: nat)
    requires Shape(cfg, s) && c < |s.phase|
  {
    && s.phase[c].Load? && s.phase[c].todo != [] && s.phase[c].todo[0] < |cfg.chunks|
    && s.phase[c].index == |cfg.chunks[s.phase[c].todo[0]]|
    && s' == s.(phase := s.phase[c := Load(s.phase[c].todo[1..], 0, false)])
  }

  ghost predicate Execute(cfg: Config, s: State, s': State, c: nat)
    requires Shape(cfg, s) && c < |s.phase|
  {
    s.phase[c].Load? && s.phase[c].todo == [] && s' == s.(phase := s.phase[c := Executing])
  }

  /** Component code on CPU c stores a word in a page of one of its components. */
  ghost predicate Write(cfg: Config, s: State, s': State, c: nat, v: nat, i: nat, value: Word)
    requires Shape(cfg, s) && c < |s.phase|
  {
    && s.phase[c].Executing? && v < |s.mem.frameOf|
    && (exists id: ChunkId :: InChunk(cfg, id, v) && id.osc in s.held[c])
    && i < |See(s.mem, v)| && i < |s.reference[v]|
    && var f := s.mem.frameOf[v];
       s' == s.(mem := s.mem.(content := s.mem.content[f := s.mem.content[f][i := value]]),
                reference := s.reference[v := s.reference[v][i := value]])
  }

  ghost predicate StartEvict(cfg: Config, s: State, s': State, c: nat)
    requires Shape(cfg, s) && c < |s.phase|
  {
    s.phase[c].Executing? && s' == s.(phase := s.phase[c := Evict(s.held[c], 0, 0)])
  }

  /** Way w records a part of component osc. */
  predicate Belongs(s: State, w: nat, osc: nat)
    requires w < |s.ways|
  {
    s.ways[w].record.Some? && s.ways[w].record.value.osc == osc
  }

  /** evictCacheWay in lookupAndEvictOSC moves the next page of the way's chunk home. */
  ghost predicate EvictPage(cfg: Config, s: State, s': State, c: nat)
    requires Shape(cfg, s) && c < |s.phase|
  {
    && s.phase[c].Evict? && s.phase[c].todo != []
    && var Evict(todo, w, k) := s.phase[c];
       && w < |s.ways| && Belongs(s, w, todo[0])
       && var id := s.ways[w].record.value;
          && InChunk(cfg, id, ChunkOfOr(cfg, id).first + k)
          && var v := ChunkOf(cfg, id).first + k;
             s' == s.(mem := Move(s.mem, v, v), inWay := s.inWay[v := None],
                      phase := s.phase[c := Evict(todo, w, k + 1)])
  }

  /** The loop of lookupAndEvictOSC goes on with the next way. */
  ghost predicate NextWay(cfg: Config, s: State, s': State, c: nat)
    requires Shape(cfg, s) && c < |s.phase|
  {
    && s.phase[c].Evict? && s.phase[c].todo != []
    && var Evict(todo, w, k) := s.phase[c];
       && w < |s.ways|
       && (Belongs(s, w, todo[0]) ==> k == ChunkOfOr(cfg, s.ways[w].record.value).count)
       && s' == s.(ways := if Belongs(s, w, todo[0]) then s.ways[w := s.ways[w].(content := None)] else s.ways,
                   phase := s.phase[c := Evict(todo, w + 1, 0)])
  }

  function Freed(cfg: Config, w: Way, osc: nat): Way {
    if w.record.Some? && w.record.value.osc == osc then
      w.(inUse := false, record := if cfg.evictAfterUse then None else w.record)
    else w
  }

  /** The region under mLock at the end of lookupAndEvictOSC. */
  ghost predicate Free(cfg: Config, s: State, s': State, c: nat)
    requires Shape(cfg, s) && c < |s.phase|
  {
    && s.phase[c].Evict? && s.phase[c].todo != [] && s.phase[c].way == |s.ways|
    && var todo := s.phase[c].todo;
       s' == s.(ways := seq(|s.ways|, w requires 0 <= w < |s.ways| => Freed(cfg, s.ways[w], todo[0])),
                phase := s.phase[c := Evict(todo[1..], 0, 0)])
  }

  /** unlockTask: the components are free again. */
  ghost predicate Finish(cfg: Config, s: State, s': State, c: nat)
    requires Shape(cfg, s) && c < |s.phase|
  {
    && s.phase[c].Evict? && s.phase[c].todo == []
    && s' == s.(phase := s.phase[c := Idle], held := s.held[c := []])
  }

  ghost predicate Does(cfg: Config, s: State, s': State, c: nat, a: Action)
    requires Shape(cfg, s) && c < |s.phase|
  {
    match a
    case DoBegin(oscs) => Begin(cfg, s, s', c, oscs)
    case DoHit(w) => Hit(cfg, s, s', c, w)
    case DoMiss(w) => Miss(cfg, s, s', c, w)
    case DoStuck => GetStuck(cfg, s, s', c)
    case DoFillPage => FillPage(cfg, s, s', c)
    case DoFillDone => FillDone(cfg, s, s', c)
    case DoRecord => Record(cfg, s, s', c)
    case DoNextComponent => NextComponent(cfg, s, s', c)
    case DoExecute => Execute(cfg, s, s', c)
    case DoWrite(v, i, value) => Write(cfg, s, s', c, v, i, value)
    case DoStartEvict => StartEvict(cfg, s, s', c)
    case DoEvictPage => EvictPage(cfg, s, s', c)
    case DoNextWay => NextWay(cfg, s, s', c)
    case DoFree => Free(cfg, s, s', c)
    case DoFinish => Finish(cfg, s, s', c)
  }

  ghost predicate Step(cfg: Config, s: State, s': State)
  {
    Shape(cfg, s) && exists c: nat, a: Action :: c < |s.phase| && Does(cfg, s, s', c, a)
  }

  /** Nothing is loaded, except that locked ways may hold critical data preloaded at start-up. */
  ghost predicate Init(cfg: Config, s: State)
  {
    && Shape(cfg, s)
    && s.slot == map[]
    && (forall c :: 0 <= c < |s.phase| ==> s.phase[c].Idle? && s.held[c] == [] && s.found[c] == {})
    && (forall w :: 0 <= w < |s.ways| ==>
          && !s.ways[w].inUse && s.ways[w].record == None
          && (s.ways[w].content.Some? ==> s.ways[w].locked && IsChunk(cfg, s.ways[w].content.value)))
    && (forall v :: 0 <= v < |s.inWay| ==> PageOk(cfg, s, v) && (Live(cfg, v) ==> See(s.mem, v) == s.reference[v]))
  }

  /** Where page v is: at its own frame, or at its place in the frames of the way that has its chunk. */
  ghost predicate PageOk(cfg: Config, s: State, v: nat)
    requires Shape(cfg, s) && v < |s.inWay|
  {
    match s.inWay[v]
    case None => s.mem.frameOf[v] == v
    case Some(w) =>
      && w < |s.ways| && s.ways[w].content.Some?
      && var id := s.ways[w].content.value;
         && InChunk(cfg, id, v)
         && v - ChunkOf(cfg, id).first < |cfg.placement[w]|
         && s.mem.frameOf[v] == cfg.placement[w][v - ChunkOf(cfg, id).first]
  }

  ghost predicate IsRun(cfg: Config, run: seq<State>)
  {
    && |run| > 0
    && Init(cfg, run[0])
    && forall i :: 0 <= i < |run| - 1 ==> Step(cfg, run[i], run[i + 1])
  }
}
