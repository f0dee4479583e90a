/** The memory layout the cache machine runs on: components cut into chunks as preloadSingleOSC does, and
    ways made of page colours as prefetchDataToWay does. */
module CacheLayout {
  import opened Arithmetic
  import opened PageTables
  import opened CacheMachine
  import Coloring = CacheColoring
  import Ways = CacheWays

  type Colors = Coloring.Colors

  /** Pages of a way. */
  function WayPages(c: Colors): nat {
    Coloring.WayPages(c)
  }

  /** The page numbers of a component's chunks. */
  function PageChunks(r: Ways.Range, c: Colors): seq<Chunk>
    requires WayPages(c) > 0
  {
    var ranges := Ways.Chunks(r.start, r.end, Coloring.ColorSize(c));
    seq(|ranges|, j requires 0 <= j < |ranges| =>
      Chunk(ranges[j].start / PAGE_SIZE, Coloring.PagesBetween(ranges[j].start, ranges[j].end)))
  }

  /** The configuration for components at these address ranges and this colouring. */
  function Layout(components: seq<Ways.Range>, c: Colors, colorsStart: nat, evictAfterUse: bool): Config
    requires c.Valid() && WayPages(c) > 0
  {
    Config(seq(|components|, o requires 0 <= o < |components| => PageChunks(components[o], c)),
           seq(c.colorCount, w requires 0 <= w => Coloring.WayFrames(c, colorsStart, w, WayPages(c))),
           evictAfterUse)
  }

  predicate PageOf(r: Ways.Range, v: nat) {
    r.start / PAGE_SIZE <= v < r.start / PAGE_SIZE + Coloring.PagesBetween(r.start, r.end)
  }

  /** Page-aligned components with disjoint pages, all of them outside the colour region, which is a run
      of `Stride` pages per hardware way. */
  ghost predicate Separate(components: seq<Ways.Range>, c: Colors, colorsStart: nat, pages: nat, frames: nat)
    requires c.Valid()
  {
    && (forall o :: 0 <= o < |components| ==> components[o].start % PAGE_SIZE == 0)
    && (forall o, p, v: nat :: 0 <= o < |components| && 0 <= p < |components| && PageOf(components[o], v) && PageOf(components[p], v) ==> o == p)
    && (forall o, v: nat :: 0 <= o < |components| && PageOf(components[o], v) ==>
          v < pages && v < frames && (v < colorsStart || colorsStart + c.hwWays * Coloring.Stride(c) <= v))
    && colorsStart + c.hwWays * Coloring.Stride(c) <= frames
  }

  /** Page v of a component is in exactly the chunk that its position says. */
  lemma {:induction false} ChunkPosition(r: Ways.Range, c: Colors, j: nat, v: nat)
    requires WayPages(c) > 0 && r.start % PAGE_SIZE == 0 && j < |PageChunks(r, c)|
    ensures var chunk := PageChunks(r, c)[j];
            && chunk.first == r.start / PAGE_SIZE + j * WayPages(c)
            && (chunk.first <= v < chunk.first + chunk.count <==>
                PageOf(r, v) && chunk.first <= v < chunk.first + WayPages(c))
  {
    var m := WayPages(c);
    var range := Ways.Chunks(r.start, r.end, PAGE_SIZE * m)[j];
    Ways.ChunksSplitPages(r.start, r.end, m, j, 0);
    Coloring.MorePages(r.start, r.end, j * m);
    if PageChunks(r, c)[j].first <= v {
      Ways.ChunksSplitPages(r.start, r.end, m, j, v - PageChunks(r, c)[j].first);
    }
  }

  lemma {:induction false} ChunkFits(r: Ways.Range, c: Colors, j: nat)
    requires WayPages(c) > 0 && r.start % PAGE_SIZE == 0 && j < |PageChunks(r, c)|
    ensures PageChunks(r, c)[j].count <= WayPages(c)
  {
    var chunk := PageChunks(r, c)[j];
    ChunkPosition(r, c, j, chunk.first + WayPages(c));
  }

  lemma {:induction false} OneChunkPerPage(r: Ways.Range, c: Colors, j: nat, k: nat, v: nat)
    requires WayPages(c) > 0 && r.start % PAGE_SIZE == 0 && j < |PageChunks(r, c)| && k < |PageChunks(r, c)|
    requires PageChunks(r, c)[j].first <= v < PageChunks(r, c)[j].first + PageChunks(r, c)[j].count
    requires PageChunks(r, c)[k].first <= v < PageChunks(r, c)[k].first + PageChunks(r, c)[k].count
    ensures j == k
  {
    ChunkPosition(r, c, j, v);
    ChunkPosition(r, c, k, v);
    SameDigits(j, v - PageChunks(r, c)[j].first, k, v - PageChunks(r, c)[k].first, WayPages(c));
  }

  lemma {:induction false} ChunkExists(r: Ways.Range, m: nat, t: nat, j: nat)
    requires m > 0 && r.start % PAGE_SIZE == 0 && t < Coloring.PagesBetween(r.start, r.end) && j * m <= t
    ensures j < |Ways.Chunks(r.start, r.end, PAGE_SIZE * m)|
  {
    Coloring.MorePages(r.start, r.end, t);
    Ways.ChunksFrom(r.start, r.end, PAGE_SIZE * m, j);
    Regroup(j, m);
  }

  lemma {:induction false} Regroup(j: nat, m: nat)
    ensures j * (PAGE_SIZE * m) == PAGE_SIZE * (j * m)
  {
  }

  /** Every page of a component is in one of its chunks. */
  lemma {:induction false} ChunksCover(r: Ways.Range, c: Colors, v: nat) returns (j: nat)
    requires WayPages(c) > 0 && r.start % PAGE_SIZE == 0 && PageOf(r, v)
    ensures j < |PageChunks(r, c)|
    ensures PageChunks(r, c)[j].first <= v < PageChunks(r, c)[j].first + PageChunks(r, c)[j].count
  {
    var m, t := WayPages(c), v - r.start / PAGE_SIZE;
    j := t / m;
    DivModParts(t, m);
    ChunkExists(r, m, t, j);
    ChunkPosition(r, c, j, v);
  }

  /** Way frames stay inside the region: with more than one page per colour it must be larger than the
      ways' pages together. */
  lemma {:induction false} PlacementInRegion(c: Colors, way: nat, k: nat)
    requires c.Valid() && way < c.colorCount && k < WayPages(c)
    ensures Coloring.Placement(c, way, k) < c.hwWays * Coloring.Stride(c)
  {
    var q, r, x := Coloring.PlacementParts(c, way, k);
    DigitBelow(q, r, c.pagesPerColor, c.hwWays);
    RowsBelow(q, x, Coloring.Stride(c), c.hwWays);
  }

  /** InChunk, in terms of the layout. */
  lemma {:induction false} LayoutPage(components: seq<Ways.Range>, c: Colors, colorsStart: nat, evictAfterUse: bool, id: ChunkId, v: nat)
    requires c.Valid() && WayPages(c) > 0 && InChunk(Layout(components, c, colorsStart, evictAfterUse), id, v)
    requires forall o :: 0 <= o < |components| ==> components[o].start % PAGE_SIZE == 0
    ensures id.osc < |components| && id.index < |PageChunks(components[id.osc], c)| && PageOf(components[id.osc], v)
    ensures var chunk := PageChunks(components[id.osc], c)[id.index]; chunk.first <= v < chunk.first + chunk.count
  {
    ChunkPosition(components[id.osc], c, id.index, v);
  }

  lemma {:induction false} FramesApart(c: Colors, colorsStart: nat, cfg: Config, w1: nat, k1: nat, w2: nat, k2: nat)
    requires c.Valid() && WayPages(c) > 0 && cfg.placement == Layout([], c, colorsStart, false).placement
    requires w1 < |cfg.placement| && k1 < |cfg.placement[w1]| && w2 < |cfg.placement| && k2 < |cfg.placement[w2]|
    requires cfg.placement[w1][k1] == cfg.placement[w2][k2]
    ensures w1 == w2 && k1 == k2
  {
    Coloring.PlacementInjective(c, w1, k1, w2, k2);
  }

  /** The real layout meets everything the cache machine assumes: for page-aligned disjoint components
      outside the colour region, and any number of pages per colour. */
  lemma {:induction false} LayoutIsWellFormed(components: seq<Ways.Range>, c: Colors, colorsStart: nat, evictAfterUse: bool, pages: nat, frames: nat)
    requires c.Valid() && WayPages(c) > 0 && Separate(components, c, colorsStart, pages, frames)
    ensures WellFormed(Layout(components, c, colorsStart, evictAfterUse), pages, frames)
  {
    var cfg := Layout(components, c, colorsStart, evictAfterUse);
    forall id1: ChunkId, id2: ChunkId, v: nat | InChunk(cfg, id1, v) && InChunk(cfg, id2, v) ensures id1 == id2 {
      LayoutPage(components, c, colorsStart, evictAfterUse, id1, v);
      LayoutPage(components, c, colorsStart, evictAfterUse, id2, v);
      OneChunkPerPage(components[id1.osc], c, id1.index, id2.index, v);
    }
    forall id: ChunkId, v: nat | InChunk(cfg, id, v) ensures v < pages && v < frames {
      LayoutPage(components, c, colorsStart, evictAfterUse, id, v);
    }
    forall id: ChunkId, w | IsChunk(cfg, id) && 0 <= w < |cfg.placement| ensures ChunkOf(cfg, id).count <= |cfg.placement[w]| {
      ChunkFits(components[id.osc], c, id.index);
    }
    forall w, k | 0 <= w < |cfg.placement| && 0 <= k < |cfg.placement[w]|
      ensures cfg.placement[w][k] < frames && !Live(cfg, cfg.placement[w][k])
    {
      PlacementInRegion(c, w, k);
      forall id: ChunkId ensures !InChunk(cfg, id, cfg.placement[w][k]) {
        if InChunk(cfg, id, cfg.placement[w][k]) {
          LayoutPage(components, c, colorsStart, evictAfterUse, id, cfg.placement[w][k]);
        }
      }
    }
    forall w1, k1, w2, k2 |
      && 0 <= w1 < |cfg.placement| && 0 <= k1 < |cfg.placement[w1]|
      && 0 <= w2 < |cfg.placement| && 0 <= k2 < |cfg.placement[w2]|
      && cfg.placement[w1][k1] == cfg.placement[w2][k2]
      ensures w1 == w2 && k1 == k2
    {
      FramesApart(c, colorsStart, cfg, w1, k1, w2, k2);
    }
  }

  /** A component's pages are exactly the pages of its chunks, so the guarantees for live pages are
      guarantees for all of its memory. */
  lemma {:induction false} ComponentIsLive(components: seq<Ways.Range>, c: Colors, colorsStart: nat, evictAfterUse: bool, o: nat, v: nat)
    requires c.Valid() && WayPages(c) > 0 && o < |components| && components[o].start % PAGE_SIZE == 0 && PageOf(components[o], v)
    ensures Live(Layout(components, c, colorsStart, evictAfterUse), v)
  {
    var j := ChunksCover(components[o], c, v);
    assert InChunk(Layout(components, c, colorsStart, evictAfterUse), ChunkId(o, j), v);
  }

  /** The same for the colours of a hardware cache, as soon as a hardware way has room for one run of
      pages per colour. */
  lemma {:induction false} HardwareLayoutIsWellFormed(components: seq<Ways.Range>, hwWaySize: nat, hwWays: nat, pagesPerColor: nat,
                                                      colorsStart: nat, evictAfterUse: bool, pages: nat, frames: nat)
    requires pagesPerColor > 0 && hwWays > 0 && hwWaySize >= PAGE_SIZE * pagesPerColor
    ensures Coloring.ColorsOf(hwWaySize, hwWays, pagesPerColor).Valid()
    ensures WayPages(Coloring.ColorsOf(hwWaySize, hwWays, pagesPerColor)) > 0
    ensures Separate(components, Coloring.ColorsOf(hwWaySize, hwWays, pagesPerColor), colorsStart, pages, frames) ==>
              WellFormed(Layout(components, Coloring.ColorsOf(hwWaySize, hwWays, pagesPerColor), colorsStart, evictAfterUse), pages, frames)
  {
    var c := Coloring.ColorsOf(hwWaySize, hwWays, pagesPerColor);
    DivModParts(hwWaySize, PAGE_SIZE * pagesPerColor);
    Scale(1, pagesPerColor, hwWays);
    if Separate(components, c, colorsStart, pages, frames) {
      LayoutIsWellFormed(components, c, colorsStart, evictAfterUse, pages, frames);
    }
  }
}
