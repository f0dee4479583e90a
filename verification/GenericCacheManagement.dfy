/** The cache way records of cachemanagement/GenericCacheManagement.cc, in byte addresses. */
module CacheWays {
  import opened PageTables
  import opened CacheColoring

  const MAX_CACHE_WAYS: nat := 128
  const LRU_MAX_VALUE: nat := 0xFF

  datatype CacheWay = CacheWay(permanentLocked: bool, lruCount: nat, dataStart: nat, dataEnd: nat, osc: nat, inUse: bool)

  /** A piece of a component that goes into one way. */
  datatype Range = Range(start: nat, end: nat)

  // ----- choosing a way -----

  predicate Eligible(w: CacheWay) {
    !w.permanentLocked && !w.inUse
  }

  ghost predicate Records(ways: seq<CacheWay>, w: nat, dataStart: nat)
  {
    w < |ways| && ways[w].dataStart == dataStart
  }

  ghost predicate NotRecorded(ways: seq<CacheWay>, dataStart: nat)
  {
    forall w :: 0 <= w < |ways| ==> ways[w].dataStart != dataStart
  }

  /** The first empty eligible way if there is one, otherwise the least recently used eligible way,
      the last of them among equals. */
  ghost predicate Victim(ways: seq<CacheWay>, v: nat)
  {
    && v < |ways| && Eligible(ways[v])
    && (if ways[v].dataStart == 0 then
          forall w :: 0 <= w < v && Eligible(ways[w]) ==> ways[w].dataStart != 0
        else
          && (forall w :: 0 <= w < |ways| && Eligible(ways[w]) ==> ways[w].dataStart != 0)
          && (forall w :: 0 <= w < |ways| && Eligible(ways[w]) ==> ways[w].lruCount <= ways[v].lruCount)
          && (forall w :: v < w < |ways| && Eligible(ways[w]) ==> ways[w].lruCount < ways[v].lruCount))
  }

  /** Ways the search has passed get older, up to the maximum. */
  function Aged(w: CacheWay): CacheWay {
    if Eligible(w) && w.lruCount != LRU_MAX_VALUE then w.(lruCount := w.lruCount + 1) else w
  }

  /** How far the search for victim v goes: up to an empty way, otherwise over all ways. */
  function Passed(ways: seq<CacheWay>, v: nat): nat {
    if v < |ways| && ways[v].dataStart == 0 then v else |ways|
  }

  /** The first way that records the chunk. */
  ghost predicate Found(ways: seq<CacheWay>, way: nat, dataStart: nat)
  {
    Records(ways, way, dataStart) && forall w :: 0 <= w < way ==> ways[w].dataStart != dataStart
  }

  /** What getLRUWay makes of a row of ways when it returns `way`. */
  ghost predicate Looked(before: seq<CacheWay>, after: seq<CacheWay>, dataStart: nat, way: nat)
  {
    && |after| == |before|
    && if Records(before, way, dataStart) then
         Found(before, way, dataStart) && after == before[way := before[way].(lruCount := 0, inUse := true)]
       else if way < |before| then
         && NotRecorded(before, dataStart) && Victim(before, way)
         && after[way] == before[way].(lruCount := 0, dataStart := 0, inUse := true)
         && forall w :: 0 <= w < |before| && w != way ==>
              after[w] == if w < Passed(before, way) then Aged(before[w]) else before[w]
       else
         && way == MAX_CACHE_WAYS && NotRecorded(before, dataStart) && after == before
         && forall w :: 0 <= w < |before| ==> !Eligible(before[w])
  }

  // ----- chunks -----

  /** The ranges preloadSingleOSC loads one by one. */
  function Chunks(start: nat, end: nat, waySize: nat): seq<Range>
    requires waySize >= 4
    decreases if end > start then end - start else 0
  {
    if start >= end then []
    else
      var preloadEnd := if start + (waySize - 4) > end then end else start + (waySize - 4);
      var next := if preloadEnd + 4 > end then end else preloadEnd + 4;
      [Range(start, preloadEnd)] + Chunks(next, end, waySize)
  }

  /** What the loop of preloadSingleOSC does next when n chunks are done. */
  lemma {:induction false} NextChunk(chunks: seq<Range>, n: nat, start: nat, end: nat, waySize: nat)
    requires waySize >= 4 && n <= |chunks| && start < end && chunks[n..] == Chunks(start, end, waySize)
    ensures var preloadEnd := if start + (waySize - 4) > end then end else start + (waySize - 4);
            && n < |chunks| && chunks[n] == Range(start, preloadEnd)
            && chunks[n + 1..] == Chunks(if preloadEnd + 4 > end then end else preloadEnd + 4, end, waySize)
  {
    assert chunks[n] == chunks[n..][0];
    assert chunks[n + 1..] == chunks[n..][1..];
  }

  lemma {:induction false} ChunksFrom(start: nat, end: nat, waySize: nat, j: nat)
    requires waySize >= 4
    ensures j < |Chunks(start, end, waySize)| <==> start + j * waySize < end
    ensures j < |Chunks(start, end, waySize)| ==>
              var s := start + j * waySize;
              Chunks(start, end, waySize)[j] == Range(s, if s + (waySize - 4) > end then end else s + (waySize - 4))
    decreases j
  {
    if start < end && j > 0 {
      var preloadEnd := if start + (waySize - 4) > end then end else start + (waySize - 4);
      var next := if preloadEnd + 4 > end then end else preloadEnd + 4;
      ChunksFrom(next, end, waySize, j - 1);
      assert next == end || next == start + waySize;
      assert start + j * waySize == start + waySize + (j - 1) * waySize;
      if next == end {
        assert Chunks(next, end, waySize) == [];
      }
    }
  }

  /** The chunks of a page-aligned component split its pages exactly: page t of chunk j is page
      j * m + t of the component, for ways of m pages.  The four bytes between chunks lose nothing. */
  lemma {:induction false} ChunksSplitPages(start: nat, end: nat, m: nat, j: nat, t: nat)
    requires m > 0 && start % PAGE_SIZE == 0 && j < |Chunks(start, end, PAGE_SIZE * m)|
    ensures var c := Chunks(start, end, PAGE_SIZE * m)[j];
            && c.start == start + PAGE_SIZE * (j * m)
            && (t < PagesBetween(c.start, c.end) <==> t < m && j * m + t < PagesBetween(start, end))
  {
    ChunksFrom(start, end, PAGE_SIZE * m, j);
    assert j * (PAGE_SIZE * m) == PAGE_SIZE * (j * m);
    SplitAt(start, end, m, j * m, t);
  }

  lemma {:induction false} SplitAt(start: nat, end: nat, m: nat, before: nat, t: nat)
    requires m > 0 && start % PAGE_SIZE == 0 && start + PAGE_SIZE * before < end
    ensures var s := start + PAGE_SIZE * before;
            var e := if s + (PAGE_SIZE * m - 4) > end then end else s + (PAGE_SIZE * m - 4);
            t < PagesBetween(s, e) <==> t < m && before + t < PagesBetween(start, end)
  {
    var s := start + PAGE_SIZE * before;
    AlignedSum(start, before);
    MorePages(s, if s + (PAGE_SIZE * m - 4) > end then end else s + (PAGE_SIZE * m - 4), t);
    MorePages(start, end, before + t);
  }

  lemma {:induction false} AlignedSum(start: nat, pages: nat)
    requires start % PAGE_SIZE == 0
    ensures (start + PAGE_SIZE * pages) % PAGE_SIZE == 0
  {
  }

  // ----- the records -----

  /** The way holds the chunk for the component, and is in use. */
  ghost predicate Holds(w: CacheWay, c: Range, osc: nat)
  {
    w.dataStart == c.start && w.dataEnd == c.end && w.osc == osc && w.inUse
  }

  /** The way records a part of the component. */
  predicate BelongsTo(w: CacheWay, osc: nat, start: nat, end: nat) {
    start <= w.dataStart < end && w.osc == osc
  }

  /** A way after its component is done with it. */
  function Released(w: CacheWay, osc: nat, start: nat, end: nat, evictAfterUse: bool): CacheWay {
    if !BelongsTo(w, osc, start, end) then w
    else if evictAfterUse then w.(dataStart := 0, osc := 0, inUse := false, lruCount := 0)
    else w.(inUse := false, lruCount := 0)
  }

  /** A way that loading the component must leave alone: in use or locked, and not its own. */
  predicate Kept(w: CacheWay, start: nat, end: nat) {
    !Eligible(w) && !(start <= w.dataStart < end)
  }

  /** The record of a chunk. */
  function Recorded(w: CacheWay, osc: nat, c: Range): CacheWay {
    w.(dataStart := c.start, dataEnd := c.end, osc := osc)
  }

  /** One turn of the loop in preloadSingleOSC: the row before it, after getLRUWay, and after recording. */
  datatype Turn = Turn(before: seq<CacheWay>, looked: seq<CacheWay>, after: seq<CacheWay>, way: nat, hit: bool)

  ghost predicate Served(l: Turn, osc: nat, c: Range)
  {
    && l.way < |l.before| && Looked(l.before, l.looked, c.start, l.way)
    && l.after == l.looked[l.way := Recorded(l.looked[l.way], osc, c)]
    && (l.hit <==> !NotRecorded(l.before, c.start))
  }

  /** Turns one after the other, from the given row on, for the first chunks. */
  ghost predicate Chain(turns: seq<Turn>, first: seq<CacheWay>, osc: nat, chunks: seq<Range>)
  {
    |turns| <= |chunks| && forall j :: 0 <= j < |turns| ==> ChainAt(turns, first, osc, chunks, j)
  }

  ghost predicate ChainAt(turns: seq<Turn>, first: seq<CacheWay>, osc: nat, chunks: seq<Range>, j: nat)
    requires j < |turns| <= |chunks|
  {
    Served(turns[j], osc, chunks[j]) && turns[j].before == if j == 0 then first else turns[j - 1].after
  }

  function RowAfter(turns: seq<Turn>, first: seq<CacheWay>): seq<CacheWay> {
    if turns == [] then first else turns[|turns| - 1].after
  }

  /** Turns before h find nothing recorded; turn h, if there is one, does. */
  ghost predicate FirstHit(turns: seq<Turn>, h: nat)
  {
    h <= |turns| && (forall j :: 0 <= j < h ==> !turns[j].hit) && (h < |turns| ==> turns[h].hit)
  }

  lemma {:induction false} ServedKeeps(l: Turn, osc: nat, c: Range, w: nat)
    requires Served(l, osc, c) && w < |l.before| && !Eligible(l.before[w]) && l.before[w].dataStart != c.start
    ensures |l.after| == |l.before| && l.after[w] == l.before[w]
  {
  }

  lemma {:induction false} ChainDropLast(turns: seq<Turn>, first: seq<CacheWay>, osc: nat, chunks: seq<Range>)
    requires Chain(turns, first, osc, chunks) && turns != []
    ensures var front := turns[..|turns| - 1];
            Chain(front, first, osc, chunks) && turns[|turns| - 1].before == RowAfter(front, first)
    ensures |RowAfter(turns, first)| == |turns[|turns| - 1].before|
  {
    var n := |turns| - 1;
    assert ChainAt(turns, first, osc, chunks, n);
    forall j | 0 <= j < n ensures ChainAt(turns[..n], first, osc, chunks, j) {
      assert ChainAt(turns, first, osc, chunks, j);
    }
  }

  lemma {:induction false} ChainKeepsLength(turns: seq<Turn>, first: seq<CacheWay>, osc: nat, chunks: seq<Range>)
    requires Chain(turns, first, osc, chunks)
    ensures |RowAfter(turns, first)| == |first|
  {
    if turns != [] {
      ChainDropLast(turns, first, osc, chunks);
      ChainKeepsLength(turns[..|turns| - 1], first, osc, chunks);
    }
  }

  /** A way that is in use or locked for something else is left alone by all turns. */
  lemma {:induction false} ChainKeeps(turns: seq<Turn>, first: seq<CacheWay>, osc: nat, chunks: seq<Range>, w: nat)
    requires Chain(turns, first, osc, chunks) && w < |first| && !Eligible(first[w])
    requires forall j :: 0 <= j < |turns| ==> chunks[j].start != first[w].dataStart
    ensures |RowAfter(turns, first)| == |first| && RowAfter(turns, first)[w] == first[w]
  {
    if turns != [] {
      var n := |turns| - 1;
      ChainDropLast(turns, first, osc, chunks);
      ChainKeeps(turns[..n], first, osc, chunks, w);
      assert ChainAt(turns, first, osc, chunks, n);
      ServedKeeps(turns[n], osc, chunks[n], w);
    }
  }

  /** A chunk served by a turn stays in its way, in use, during all later turns. */
  lemma {:induction false} ChainHolds(turns: seq<Turn>, first: seq<CacheWay>, osc: nat, chunks: seq<Range>, j: nat)
    requires Chain(turns, first, osc, chunks) && j < |turns|
    requires forall i, k :: 0 <= i < k < |turns| ==> chunks[i].start < chunks[k].start
    ensures turns[j].way < |RowAfter(turns, first)| && Holds(RowAfter(turns, first)[turns[j].way], chunks[j], osc)
  {
    var n := |turns| - 1;
    assert ChainAt(turns, first, osc, chunks, n);
    if j < n {
      ChainDropLast(turns, first, osc, chunks);
      ChainHolds(turns[..n], first, osc, chunks, j);
      ServedKeeps(turns[n], osc, chunks[n], turns[j].way);
    }
  }

  lemma {:induction false} ChainSnoc(turns: seq<Turn>, first: seq<CacheWay>, osc: nat, chunks: seq<Range>, l: Turn)
    requires Chain(turns, first, osc, chunks) && |turns| < |chunks|
    requires Served(l, osc, chunks[|turns|]) && l.before == RowAfter(turns, first)
    ensures Chain(turns + [l], first, osc, chunks) && RowAfter(turns + [l], first) == l.after
  {
    forall j | 0 <= j < |turns + [l]| ensures ChainAt(turns + [l], first, osc, chunks, j) {
      if j < |turns| {
        assert ChainAt(turns, first, osc, chunks, j);
      }
    }
  }

  /** The loop of preloadSingleOSC with `turns` behind it, about to go on at oscStart. */
  ghost predicate Loading(turns: seq<Turn>, first: seq<CacheWay>, osc: nat, chunks: seq<Range>, h: nat,
                          skipPreload: bool, prefetched: seq<Range>)
  {
    && Chain(turns, first, osc, chunks)
    && FirstHit(turns, h) && (skipPreload <==> h < |turns|) && prefetched == chunks[..h]
  }

  lemma {:induction false} LoadingSnoc(turns: seq<Turn>, first: seq<CacheWay>, osc: nat, chunks: seq<Range>, h: nat,
                                       skipPreload: bool, prefetched: seq<Range>, l: Turn)
    requires Loading(turns, first, osc, chunks, h, skipPreload, prefetched) && |turns| < |chunks|
    requires Served(l, osc, chunks[|turns|]) && l.before == RowAfter(turns, first)
    ensures var skip := skipPreload || l.hit;
            Loading(turns + [l], first, osc, chunks, if skip then h else h + 1, skip,
                    if skip then prefetched else prefetched + [chunks[|turns|]])
    ensures RowAfter(turns + [l], first) == l.after
  {
    ChainSnoc(turns, first, osc, chunks, l);
  }

  /** What the turns of a whole component leave behind. */
  lemma {:induction false} LoadedAtTheEnd(turns: seq<Turn>, first: seq<CacheWay>, osc: nat, start: nat, end: nat, waySize: nat)
    requires waySize >= 4 && Chain(turns, first, osc, Chunks(start, end, waySize))
    ensures |RowAfter(turns, first)| == |first|
    ensures forall j :: 0 <= j < |turns| ==>
              && turns[j].way < |RowAfter(turns, first)|
              && Holds(RowAfter(turns, first)[turns[j].way], Chunks(start, end, waySize)[j], osc)
    ensures forall w :: 0 <= w < |first| && Kept(first[w], start, end) ==> RowAfter(turns, first)[w] == first[w]
  {
    var chunks := Chunks(start, end, waySize);
    ChainKeepsLength(turns, first, osc, chunks);
    forall i | 0 <= i < |turns| ensures start <= chunks[i].start < end && chunks[i].start == start + i * waySize {
      ChunksFrom(start, end, waySize, i);
    }
    forall i, k | 0 <= i < k < |turns| ensures chunks[i].start < chunks[k].start {
      FurtherOn(i, k, waySize);
    }
    forall j | 0 <= j < |turns|
      ensures turns[j].way < |RowAfter(turns, first)| && Holds(RowAfter(turns, first)[turns[j].way], chunks[j], osc)
    {
      ChainHolds(turns, first, osc, chunks, j);
    }
    forall w | 0 <= w < |first| && Kept(first[w], start, end) ensures RowAfter(turns, first)[w] == first[w] {
      ChainKeeps(turns, first, osc, chunks, w);
    }
  }

  lemma {:induction false} FurtherOn(i: nat, k: nat, size: nat)
    requires i < k && size > 0
    ensures i * size < k * size
  {
  }

  class GenericCacheManagement {
    const mCacheWays: array<CacheWay>
    const evictAfterUse: bool            // CONFIG_CACHE_CONTROL_EVICT_AFTER_USE

    ghost predicate Valid()
      reads this, mCacheWays
    {
      && mCacheWays.Length <= MAX_CACHE_WAYS
      && forall w :: 0 <= w < mCacheWays.Length ==> mCacheWays[w].lruCount <= LRU_MAX_VALUE
    }

    /** The first loop of getLRUWay: the first way that records the chunk, or the number of ways. */
    method FindRecorded(dataStart: nat) returns (way: nat)
      ensures way < mCacheWays.Length ==> Found(mCacheWays[..], way, dataStart)
      ensures way >= mCacheWays.Length ==> NotRecorded(mCacheWays[..], dataStart)
    {
      way := 0;
      while way < mCacheWays.Length
        invariant way <= mCacheWays.Length
        invariant forall w :: 0 <= w < way ==> mCacheWays[w].dataStart != dataStart
      {
        if mCacheWays[way].dataStart == dataStart {
          return;
        }
        way := way + 1;
      }
    }

    /** The second loop of getLRUWay: picks the victim; the ways passed on the way to it get older. */
    method SelectVictim() returns (maxCacheWay: nat, validWay: bool)
      requires Valid()
      modifies mCacheWays
      ensures Valid()
      ensures validWay ==> Victim(old(mCacheWays[..]), maxCacheWay)
      ensures !validWay ==> forall w :: 0 <= w < mCacheWays.Length ==> !Eligible(old(mCacheWays[w]))
      ensures forall w :: 0 <= w < mCacheWays.Length ==>
                mCacheWays[w] == if !validWay || w < Passed(old(mCacheWays[..]), maxCacheWay) then Aged(old(mCacheWays[w]))
                                 else old(mCacheWays[w])
    {
      ghost var before := mCacheWays[..];
      var maxLRUcount, way := 0, 0;
      maxCacheWay, validWay := 0, false;
      while way < mCacheWays.Length
        invariant way <= mCacheWays.Length && |before| == mCacheWays.Length
        invariant forall w :: 0 <= w < way ==> mCacheWays[w] == Aged(before[w])
        invariant forall w :: way <= w < mCacheWays.Length ==> mCacheWays[w] == before[w]
        invariant forall w :: 0 <= w < way && Eligible(before[w]) ==> before[w].dataStart != 0
        invariant validWay ==> maxCacheWay < way && Eligible(before[maxCacheWay]) && maxLRUcount == before[maxCacheWay].lruCount
        invariant !validWay ==> maxLRUcount == 0 && forall w :: 0 <= w < way ==> !Eligible(before[w])
        invariant forall w :: 0 <= w < way && Eligible(before[w]) ==> before[w].lruCount <= maxLRUcount
        invariant forall w :: 0 <= w < way && Eligible(before[w]) && w > maxCacheWay ==> before[w].lruCount < maxLRUcount
      {
        var lruCount := mCacheWays[way].lruCount;
        if !mCacheWays[way].permanentLocked && !mCacheWays[way].inUse {
          if mCacheWays[way].dataStart == 0 {
            maxCacheWay, validWay := way, true;
            break;
          }
          if lruCount >= maxLRUcount {
            maxLRUcount, maxCacheWay, validWay := lruCount, way, true;
          }
          if mCacheWays[way].lruCount != LRU_MAX_VALUE {
            mCacheWays[way] := mCacheWays[way].(lruCount := mCacheWays[way].lruCount + 1);
          }
        }
        way := way + 1;
      }
    }

    /** The region under mLock.  `evicted` says that the chosen way's old range was moved out first. */
    method GetLRUWay(dataStart: nat) returns (way: nat, evicted: bool)
      requires Valid()
      modifies mCacheWays
      ensures Valid()
      ensures Looked(old(mCacheWays[..]), mCacheWays[..], dataStart, way)
      ensures evicted <==> way < mCacheWays.Length && !Records(old(mCacheWays[..]), way, dataStart)
                           && old(mCacheWays[..])[way].dataStart != 0
    {
      evicted := false;
      way := FindRecorded(dataStart);
      if way < mCacheWays.Length {
        mCacheWays[way] := mCacheWays[way].(lruCount := 0, inUse := true);
        return;
      }
      ghost var before := mCacheWays[..];
      var maxCacheWay, validWay := SelectVictim();
      if validWay {
        evicted := mCacheWays[maxCacheWay].dataStart != 0;
        mCacheWays[maxCacheWay] := mCacheWays[maxCacheWay].(lruCount := 0, dataStart := 0, inUse := true);
        way := maxCacheWay;
      } else {
        assert mCacheWays[..] == before;
        way := MAX_CACHE_WAYS;
      }
    }

    /** Gets a way for one chunk and records the chunk there. */
    method PreloadChunk(osc: nat, c: Range) returns (way: nat, hit: bool, ghost turn: Turn)
      requires Valid() && c.start > 0
      modifies mCacheWays
      ensures Valid()
      ensures way < mCacheWays.Length ==>
                turn == Turn(old(mCacheWays[..]), turn.looked, mCacheWays[..], way, hit) && Served(turn, osc, c)
      ensures way >= mCacheWays.Length ==>
                && way == MAX_CACHE_WAYS && !hit && mCacheWays[..] == old(mCacheWays[..])
                && NotRecorded(mCacheWays[..], c.start) && forall w :: 0 <= w < mCacheWays.Length ==> !Eligible(mCacheWays[w])
    {
      ghost var before := mCacheWays[..];
      var lruCacheWay, evicted := GetLRUWay(c.start);
      ghost var looked := mCacheWays[..];
      way, hit := lruCacheWay, false;
      if lruCacheWay != MAX_CACHE_WAYS {
        hit := mCacheWays[lruCacheWay].dataStart == c.start;
        mCacheWays[lruCacheWay] := mCacheWays[lruCacheWay].(dataStart := c.start, dataEnd := c.end, osc := osc);
      }
      turn := Turn(before, looked, mCacheWays[..], way, hit);
    }

    /** One turn of the loop in preloadSingleOSC, for the chunk [oscStart, preloadEnd). */
    method PreloadTurn(osc: nat, c: Range, skipPreload: bool, prefetched: seq<Range>,
                       ghost turns: seq<Turn>, ghost first: seq<CacheWay>, ghost chunks: seq<Range>, ghost h: nat)
      returns (way: nat, skip: bool, prefetched': seq<Range>, ghost turns': seq<Turn>, ghost h': nat)
      requires Valid() && mCacheWays[..] == RowAfter(turns, first) && c.start > 0
      requires Loading(turns, first, osc, chunks, h, skipPreload, prefetched) && |turns| < |chunks| && chunks[|turns|] == c
      modifies mCacheWays
      ensures Valid() && mCacheWays[..] == RowAfter(turns', first)
      ensures Loading(turns', first, osc, chunks, h', skip, prefetched')
      ensures way >= mCacheWays.Length ==>
                && way == MAX_CACHE_WAYS && turns' == turns
                && NotRecorded(mCacheWays[..], c.start) && forall w :: 0 <= w < mCacheWays.Length ==> !Eligible(mCacheWays[w])
      ensures way < mCacheWays.Length ==> |turns'| == |turns| + 1
    {
      var hit;
      ghost var turn;
      way, hit, turn := PreloadChunk(osc, c);
      skip, prefetched', turns', h' := skipPreload, prefetched, turns, h;
      if way != MAX_CACHE_WAYS {
        LoadingSnoc(turns, first, osc, chunks, h, skipPreload, prefetched, turn);
        skip := skipPreload || hit;
        if !skip {
          prefetched' := prefetched + [c];
          h' := h + 1;
        }
        turns' := turns + [turn];
      }
    }

    /** Loads a component chunk by chunk.  `turns` are the turns of the loop, `prefetched` the ranges
        handed to prefetchDataToWay: exactly the chunks before the first one found recorded.  Every turn
        records its chunk, moved or not, in a way that keeps it to the end.  Without a way for some chunk
        the source stops for good; then ok is false. */
    method PreloadSingleOSC(osc: nat, start: nat, end: nat, waySize: nat)
      returns (ok: bool, prefetched: seq<Range>, ghost turns: seq<Turn>, ghost h: nat)
      requires Valid() && waySize >= 4 && start > 0
      modifies mCacheWays
      ensures Valid()
      ensures Chain(turns, old(mCacheWays[..]), osc, Chunks(start, end, waySize))
      ensures mCacheWays[..] == RowAfter(turns, old(mCacheWays[..]))
      ensures FirstHit(turns, h) && prefetched == Chunks(start, end, waySize)[..h]
      ensures ok <==> |turns| == |Chunks(start, end, waySize)|
      ensures !ok ==> NotRecorded(mCacheWays[..], Chunks(start, end, waySize)[|turns|].start)
                      && forall w :: 0 <= w < mCacheWays.Length ==> !Eligible(mCacheWays[w])
      ensures forall j :: 0 <= j < |turns| ==>
                turns[j].way < mCacheWays.Length && Holds(mCacheWays[turns[j].way], Chunks(start, end, waySize)[j], osc)
      ensures forall w :: 0 <= w < mCacheWays.Length && Kept(old(mCacheWays[w]), start, end) ==>
                mCacheWays[w] == old(mCacheWays[w])
    {
      ghost var chunks, first := Chunks(start, end, waySize), mCacheWays[..];
      var oscStart, skipPreload := start, false;
      ok, prefetched, turns, h := true, [], [], 0;
      while oscStart < end
        invariant Valid() && mCacheWays[..] == RowAfter(turns, first)
        invariant Loading(turns, first, osc, chunks, h, skipPreload, prefetched)
        invariant start <= oscStart && chunks[|turns|..] == Chunks(oscStart, end, waySize)
        decreases end - oscStart
      {
        var preloadEnd := oscStart + (waySize - 4);
        if preloadEnd > end {
          preloadEnd := end;
        }
        NextChunk(chunks, |turns|, oscStart, end, waySize);
        var lruCacheWay;
        lruCacheWay, skipPreload, prefetched, turns, h :=
          PreloadTurn(osc, Range(oscStart, preloadEnd), skipPreload, prefetched, turns, first, chunks, h);
        if lruCacheWay == MAX_CACHE_WAYS {
          ok := false;
          break;
        }
        oscStart := if preloadEnd + 4 > end then end else preloadEnd + 4;
      }
      LoadedAtTheEnd(turns, first, osc, start, end, waySize);
    }

    /** The second loop of lookupAndEvictOSC, under mLock: frees the component's ways. */
    method FreeWays(osc: nat, start: nat, end: nat)
      requires Valid()
      modifies mCacheWays
      ensures Valid()
      ensures forall w :: 0 <= w < mCacheWays.Length ==>
                mCacheWays[w] == Released(old(mCacheWays[w]), osc, start, end, evictAfterUse)
    {
      for cacheWay := 0 to mCacheWays.Length
        invariant forall w :: 0 <= w < mCacheWays.Length ==>
                    mCacheWays[w] == if w >= cacheWay then old(mCacheWays[w])
                                     else Released(old(mCacheWays[w]), osc, start, end, evictAfterUse)
      {
        var dataStart := mCacheWays[cacheWay].dataStart;
        if dataStart >= start && dataStart < end && osc == mCacheWays[cacheWay].osc {
          if evictAfterUse {
            mCacheWays[cacheWay] := mCacheWays[cacheWay].(dataStart := 0, osc := 0);
          }
          mCacheWays[cacheWay] := mCacheWays[cacheWay].(inUse := false, lruCount := 0);
        }
      }
    }

    /** The first loop of lookupAndEvictOSC: the ways handed to evictCacheWay, in order. */
    method WaysToEvict(osc: nat, start: nat, end: nat) returns (ways: seq<nat>)
      ensures forall w: nat :: w in ways <==> w < mCacheWays.Length && BelongsTo(mCacheWays[w], osc, start, end)
      ensures forall i, j :: 0 <= i < j < |ways| ==> ways[i] < ways[j]
    {
      ways := [];
      for cacheWay := 0 to mCacheWays.Length
        invariant forall w: nat :: w in ways <==> w < cacheWay && BelongsTo(mCacheWays[w], osc, start, end)
        invariant forall i :: 0 <= i < |ways| ==> ways[i] in ways
        invariant forall i, j :: 0 <= i < j < |ways| ==> ways[i] < ways[j]
      {
        var dataStart := mCacheWays[cacheWay].dataStart;
        if dataStart >= start && dataStart < end && osc == mCacheWays[cacheWay].osc {
          ways := ways + [cacheWay];
        }
      }
    }
  }
}
