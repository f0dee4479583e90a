/** The way records of GenericCacheManagement and the moves of CacheColoring carry out the steps of the
    cache machine: its ways are an abstraction of the records. */
module CacheRefinement {
  import opened Arithmetic
  import opened EventTypes
  import opened PageTables
  import opened PagedMemory
  import opened CacheMachine
  import opened CacheLayout
  import opened CacheProgress
  import Coloring = CacheColoring
  import Ways = CacheWays

  /** Where components, their OSC objects and the colour region are. */
  datatype World = World(components: seq<Ways.Range>, oscs: seq<nat>, colors: Colors, colorsStart: nat, evictAfterUse: bool)

  ghost predicate Placed(x: World, pages: nat, frames: nat)
  {
    && x.colors.Valid() && WayPages(x.colors) > 0 && |x.oscs| == |x.components|
    && Separate(x.components, x.colors, x.colorsStart, pages, frames)
    && (forall o :: 0 <= o < |x.components| ==> x.components[o].start > 0)
    && (forall o, p :: 0 <= o < |x.oscs| && 0 <= p < |x.oscs| && x.oscs[o] == x.oscs[p] ==> o == p)
  }

  function ConfigOf(x: World): Config
    requires x.colors.Valid() && WayPages(x.colors) > 0
  {
    Layout(x.components, x.colors, x.colorsStart, x.evictAfterUse)
  }

  /** The chunk's address range. */
  function RangeOf(x: World, id: ChunkId): Ways.Range
    requires x.colors.Valid() && WayPages(x.colors) > 0 && IsChunk(ConfigOf(x), id)
  {
    Ways.Chunks(x.components[id.osc].start, x.components[id.osc].end, PAGE_SIZE * WayPages(x.colors))[id.index]
  }

  /** A row of records stands for the machine's ways. */
  ghost predicate Represents(x: World, rows: seq<Ways.CacheWay>, ways: seq<Way>)
    requires x.colors.Valid() && WayPages(x.colors) > 0
  {
    |rows| == |ways| && forall w :: 0 <= w < |rows| ==> RowIs(x, rows[w], ways[w])
  }

  ghost predicate RowIs(x: World, row: Ways.CacheWay, way: Way)
    requires x.colors.Valid() && WayPages(x.colors) > 0
  {
    && row.permanentLocked == way.locked && row.inUse == way.inUse
    && match way.record
       case None => row.dataStart == 0
       case Some(id) =>
         && IsChunk(ConfigOf(x), id) && id.osc < |x.oscs| && row.osc == x.oscs[id.osc]
         && row.dataStart == RangeOf(x, id).start && row.dataEnd == RangeOf(x, id).end
  }

  // ----- chunk addresses -----

  /** A chunk begins in its component, on the page that the machine knows as its first. */
  lemma {:induction false} ChunkStart(x: World, id: ChunkId, pages: nat, frames: nat)
    requires Placed(x, pages, frames) && IsChunk(ConfigOf(x), id)
    ensures var r, c := RangeOf(x, id), x.components[id.osc];
            && c.start <= r.start < c.end && r.start > 0
            && r.start / PAGE_SIZE == ChunkOf(ConfigOf(x), id).first
            && PageOf(c, r.start / PAGE_SIZE)
            && ChunkOf(ConfigOf(x), id).count == Coloring.PagesBetween(r.start, r.end)
    ensures InChunk(ConfigOf(x), id, RangeOf(x, id).start / PAGE_SIZE)
    ensures RangeOf(x, id).start % PAGE_SIZE == 0
  {
    var c, m := x.components[id.osc], WayPages(x.colors);
    Ways.ChunksFrom(c.start, c.end, PAGE_SIZE * m, id.index);
    Ways.ChunksSplitPages(c.start, c.end, m, id.index, 0);
    Ways.AlignedSum(c.start, id.index * m);
    Coloring.MorePages(c.start, c.end, id.index * m);
    ChunkPosition(c, x.colors, id.index, RangeOf(x, id).start / PAGE_SIZE);
    NoneEmptyChunk(c, x.colors, id.index);
  }

  lemma {:induction false} NoneEmptyChunk(r: Ways.Range, c: Colors, j: nat)
    requires WayPages(c) > 0 && r.start % PAGE_SIZE == 0 && j < |PageChunks(r, c)|
    ensures PageChunks(r, c)[j].count > 0
  {
    var m := WayPages(c);
    Ways.ChunksFrom(r.start, r.end, PAGE_SIZE * m, j);
    assert j * (PAGE_SIZE * m) == PAGE_SIZE * (j * m) by { CacheLayout.Regroup(j, m); }
    Ways.ChunksSplitPages(r.start, r.end, m, j, 0);
    Coloring.MorePages(r.start, r.end, j * m);
  }

  lemma {:induction false} StartsDiffer(x: World, id1: ChunkId, id2: ChunkId, pages: nat, frames: nat)
    requires Placed(x, pages, frames) && IsChunk(ConfigOf(x), id1) && IsChunk(ConfigOf(x), id2)
    requires RangeOf(x, id1).start == RangeOf(x, id2).start
    ensures id1 == id2
  {
    ChunkStart(x, id1, pages, frames);
    ChunkStart(x, id2, pages, frames);
    LayoutIsWellFormed(x.components, x.colors, x.colorsStart, x.evictAfterUse, pages, frames);
  }

  /** The test of lookupAndEvictOSC on a record is the machine's. */
  lemma {:induction false} BelongsIsBelongs(x: World, row: Ways.CacheWay, way: Way, o: nat, pages: nat, frames: nat)
    requires Placed(x, pages, frames) && RowIs(x, row, way) && o < |x.components|
    ensures Ways.BelongsTo(row, x.oscs[o], x.components[o].start, x.components[o].end)
            <==> way.record.Some? && way.record.value.osc == o
  {
    if way.record.Some? {
      ChunkStart(x, way.record.value, pages, frames);
    }
  }

  // ----- the regions under mLock -----

  /** A way has the chunk's address exactly when the machine's way records the chunk. */
  lemma {:induction false} SameRecords(x: World, s: State, rows: seq<Ways.CacheWay>, id: ChunkId, w: nat)
    requires Placed(x, |s.mem.frameOf|, |s.mem.content|) && IsChunk(ConfigOf(x), id)
    requires Represents(x, rows, s.ways) && w < |rows|
    ensures rows[w].dataStart == RangeOf(x, id).start <==> s.ways[w].record == Some(id)
  {
    ChunkStart(x, id, |s.mem.frameOf|, |s.mem.content|);
    assert RowIs(x, rows[w], s.ways[w]);
    if s.ways[w].record.Some? && rows[w].dataStart == RangeOf(x, id).start {
      StartsDiffer(x, s.ways[w].record.value, id, |s.mem.frameOf|, |s.mem.content|);
    }
  }

  /** getLRUWay on the records is a hit, a miss or the abort of the machine. */
  lemma {:induction false} LookupIsStep(x: World, s: State, c: nat, before: seq<Ways.CacheWay>, after: seq<Ways.CacheWay>, way: nat)
    returns (a: Action, s': State)
    requires Placed(x, |s.mem.frameOf|, |s.mem.content|) && Shape(ConfigOf(x), s) && c < |s.phase| && AtChunk(ConfigOf(x), s, c)
    requires Represents(x, before, s.ways) && |before| <= Ways.MAX_CACHE_WAYS
    requires Ways.Looked(before, after, RangeOf(x, ChunkId(s.phase[c].todo[0], s.phase[c].index)).start, way)
    ensures Does(ConfigOf(x), s, s', c, a) && Represents(x, after, s'.ways)
    ensures a == if way >= |before| then DoStuck
                 else if before[way].dataStart == RangeOf(x, ChunkId(s.phase[c].todo[0], s.phase[c].index)).start then DoHit(way)
                 else DoMiss(way)
  {
    var cfg, id := ConfigOf(x), ChunkId(s.phase[c].todo[0], s.phase[c].index);
    forall w | 0 <= w < |before| ensures before[w].dataStart == RangeOf(x, id).start <==> s.ways[w].record == Some(id) {
      SameRecords(x, s, before, id, w);
    }
    if way < |before| {
      assert RowIs(x, before[way], s.ways[way]);
      if before[way].dataStart == RangeOf(x, id).start {
        a := DoHit(way);
        s' := CanHit(cfg, s, c, way);
      } else {
        a := DoMiss(way);
        s' := CanMiss(cfg, s, c, way);
      }
    } else {
      a, s' := DoStuck, s.(phase := s.phase[c := Stuck]);
    }
    forall w | 0 <= w < |after| ensures RowIs(x, after[w], s'.ways[w]) {
      assert RowIs(x, before[w], s.ways[w]);
    }
  }

  /** Writing the record is the machine's. */
  lemma {:induction false} RecordIsStep(x: World, s: State, c: nat, rows: seq<Ways.CacheWay>) returns (s': State)
    requires x.colors.Valid() && WayPages(x.colors) > 0 && |x.oscs| == |x.components|
    requires Shape(ConfigOf(x), s) && c < |s.phase| && Represents(x, rows, s.ways)
    requires s.phase[c].Recording? && s.phase[c].todo != [] && s.phase[c].way < |rows|
    requires IsChunk(ConfigOf(x), ChunkId(s.phase[c].todo[0], s.phase[c].index))
    ensures Record(ConfigOf(x), s, s', c)
    ensures var id, w := ChunkId(s.phase[c].todo[0], s.phase[c].index), s.phase[c].way;
            Represents(x, rows[w := Ways.Recorded(rows[w], x.oscs[id.osc], RangeOf(x, id))], s'.ways)
  {
    var p := s.phase[c];
    var id := ChunkId(p.todo[0], p.index);
    s' := s.(ways := s.ways[p.way := s.ways[p.way].(record := Some(id))], slot := s.slot[id := p.way],
             phase := s.phase[c := Load(p.todo, p.index + 1, p.skip)]);
    forall w | 0 <= w < |rows|
      ensures RowIs(x, rows[p.way := Ways.Recorded(rows[p.way], x.oscs[id.osc], RangeOf(x, id))][w], s'.ways[w])
    {
      assert RowIs(x, rows[w], s.ways[w]);
    }
  }

  /** What FreeWays does to the records, the machine does when the last way has been looked at. */
  lemma {:induction false} FreeIsStep(x: World, s: State, c: nat, before: seq<Ways.CacheWay>, after: seq<Ways.CacheWay>) returns (s': State)
    requires Placed(x, |s.mem.frameOf|, |s.mem.content|) && Shape(ConfigOf(x), s) && c < |s.phase| && Represents(x, before, s.ways)
    requires s.phase[c].Evict? && s.phase[c].todo != [] && s.phase[c].way == |s.ways| && s.phase[c].todo[0] < |x.components|
    requires |after| == |before|
    requires forall w :: 0 <= w < |before| ==>
               after[w] == Ways.Released(before[w], x.oscs[s.phase[c].todo[0]], x.components[s.phase[c].todo[0]].start,
                                         x.components[s.phase[c].todo[0]].end, x.evictAfterUse)
    ensures Free(ConfigOf(x), s, s', c) && Represents(x, after, s'.ways)
  {
    var cfg, todo := ConfigOf(x), s.phase[c].todo;
    s' := s.(ways := seq(|s.ways|, w requires 0 <= w < |s.ways| => Freed(cfg, s.ways[w], todo[0])),
             phase := s.phase[c := Evict(todo[1..], 0, 0)]);
    forall w | 0 <= w < |after| ensures RowIs(x, after[w], s'.ways[w]) {
      assert RowIs(x, before[w], s.ways[w]);
      BelongsIsBelongs(x, before[w], s.ways[w], todo[0], |s.mem.frameOf|, |s.mem.content|);
    }
  }

  /** WaysToEvict's ways are those whose pages the machine moves home. */
  lemma {:induction false} EvictsOwnWays(x: World, s: State, rows: seq<Ways.CacheWay>, o: nat, ways: seq<nat>)
    requires Placed(x, |s.mem.frameOf|, |s.mem.content|) && Represents(x, rows, s.ways) && o < |x.components|
    requires forall w: nat :: w in ways <==> w < |rows| && Ways.BelongsTo(rows[w], x.oscs[o], x.components[o].start, x.components[o].end)
    ensures forall w: nat :: w in ways <==> w < |s.ways| && Belongs(s, w, o)
  {
    forall w: nat | w < |rows| ensures w in ways <==> Belongs(s, w, o) {
      assert RowIs(x, rows[w], s.ways[w]);
      BelongsIsBelongs(x, rows[w], s.ways[w], o, |s.mem.frameOf|, |s.mem.content|);
    }
  }

  // ----- the moves -----

  /** prefetchDataToWay moves the pages of a chunk to the frames that the machine gives them. */
  lemma {:induction false} PrefetchTargets(x: World, id: ChunkId, w: nat, pages: nat, frames: nat)
    requires Placed(x, pages, frames) && IsChunk(ConfigOf(x), id) && w < x.colors.colorCount
    ensures var r, chunk := RangeOf(x, id), ChunkOf(ConfigOf(x), id);
            && r.start / PAGE_SIZE == chunk.first
            && chunk.count <= |ConfigOf(x).placement[w]|
            && Coloring.WayFrames(x.colors, x.colorsStart, w, Coloring.PagesBetween(Coloring.PageStart(r.start), r.end))
               == ConfigOf(x).placement[w][..chunk.count]
  {
    ChunkStart(x, id, pages, frames);
    LayoutIsWellFormed(x.components, x.colors, x.colorsStart, x.evictAfterUse, pages, frames);
    assert Coloring.PageStart(RangeOf(x, id).start) == RangeOf(x, id).start;
  }

  /** Each FillPage of the machine is the next move of prefetchDataToWay. */
  lemma {:induction false} FillIsNextMove(cfg: Config, s: State, s': State, c: nat, start: Memory)
    requires Shape(cfg, s) && c < |s.phase| && FillPage(cfg, s, s', c) && Mapped(start)
    requires |start.frameOf| == |s.mem.frameOf| && |start.content| == |s.mem.content|
    requires var p := s.phase[c];
             s.mem == MoveAll(start, ChunkOf(cfg, ChunkId(p.todo[0], p.index)).first, cfg.placement[p.way][..p.page])
    ensures var p := s.phase[c];
            s'.mem == MoveAll(start, ChunkOf(cfg, ChunkId(p.todo[0], p.index)).first, cfg.placement[p.way][..p.page + 1])
  {
    var p := s.phase[c];
    assert cfg.placement[p.way][..p.page + 1][..p.page] == cfg.placement[p.way][..p.page];
  }

  /** evictCacheWay moves a recorded chunk home as the machine does. */
  lemma {:induction false} EvictIsHome(x: World, s: State, id: ChunkId)
    requires Placed(x, |s.mem.frameOf|, |s.mem.content|) && Shape(ConfigOf(x), s) && IsChunk(ConfigOf(x), id)
    ensures var r := RangeOf(x, id);
            && r.start / PAGE_SIZE + Coloring.PagesBetween(r.start, r.end) <= |s.mem.frameOf|
            && r.start / PAGE_SIZE + Coloring.PagesBetween(r.start, r.end) <= |s.mem.content|
            && MoveAll(s.mem, r.start / PAGE_SIZE, Coloring.HomeFrames(r.start / PAGE_SIZE, Coloring.PagesBetween(r.start, r.end)))
               == Home(ConfigOf(x), s, id)
  {
    ChunkStart(x, id, |s.mem.frameOf|, |s.mem.content|);
    var chunk := ChunkOf(ConfigOf(x), id);
    assert InChunk(ConfigOf(x), id, chunk.first + (chunk.count - 1));
    assert Coloring.HomeFrames(chunk.first, chunk.count) == seq(chunk.count, k requires 0 <= k => chunk.first + k);
  }
}
