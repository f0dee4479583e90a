/** Page colouring (cachemanagement/CacheColoring.cc): where the pages of a "virtual way" go. */
module CacheColoring {
  import opened PageTables
  import opened PagedMemory
  import opened Arithmetic

  /** ppc pages per colour, C colours, H hardware ways. */
  datatype Colors = Colors(pagesPerColor: nat, colorCount: nat, hwWays: nat) {
    ghost predicate Valid() {
      pagesPerColor > 0 && colorCount > 0
    }
  }

  /** The running page offset of prefetchDataToWay after k pages. */
  function Offset(c: Colors, k: nat): nat
    requires c.Valid()
  {
    if k == 0 then 0
    else Offset(c, k - 1) + (if k % c.pagesPerColor == 0 then c.pagesPerColor * c.colorCount else 1)
  }

  /** Page k of a way, counted in pages from the start of the colour region. */
  function Placement(c: Colors, way: nat, k: nat): nat
    requires c.Valid()
  {
    way * c.pagesPerColor + Offset(c, k)
  }

  /** The colour of a page of the region: runs of ppc pages take turns. */
  function ColorOf(c: Colors, page: nat): nat
    requires c.Valid()
  {
    page / c.pagesPerColor % c.colorCount
  }

  function ColorCount(hwWaySize: nat, pagesPerColor: nat): nat
    requires pagesPerColor > 0
  {
    hwWaySize / (PAGE_SIZE * pagesPerColor)
  }

  /** Pages of one colour. */
  function WayPages(c: Colors): nat {
    c.pagesPerColor * c.hwWays
  }

  /** Bytes of one colour: what the cache management takes for a way. */
  function ColorSize(c: Colors): nat {
    PAGE_SIZE * WayPages(c)
  }

  /** The colours of a cache of hwWays hardware ways of hwWaySize bytes. */
  function ColorsOf(hwWaySize: nat, hwWays: nat, pagesPerColor: nat): Colors
    requires pagesPerColor > 0
  {
    Colors(pagesPerColor, ColorCount(hwWaySize, pagesPerColor), hwWays)
  }

  /** The colours together are the whole cache, exactly when a hardware way is a whole number of colours'
      runs of pages; otherwise a rest is left out. */
  lemma {:induction false} ColorsFillCache(hwWaySize: nat, hwWays: nat, pagesPerColor: nat)
    requires pagesPerColor > 0 && hwWays > 0
    ensures var c := ColorsOf(hwWaySize, hwWays, pagesPerColor);
            && c.colorCount * ColorSize(c) <= hwWaySize * hwWays
            && (c.colorCount * ColorSize(c) == hwWaySize * hwWays <==> hwWaySize % (PAGE_SIZE * pagesPerColor) == 0)
  {
    var run := PAGE_SIZE * pagesPerColor;
    var n, rest := hwWaySize / run, hwWaySize % run;
    DivModParts(hwWaySize, run);
    Product(n, pagesPerColor, hwWays);
    SumTimes(n * run, rest, hwWays);
  }

  lemma {:induction false} Product(n: nat, ppc: nat, hwWays: nat)
    ensures n * (PAGE_SIZE * (ppc * hwWays)) == n * (PAGE_SIZE * ppc) * hwWays
  {
    assert PAGE_SIZE * (ppc * hwWays) == PAGE_SIZE * ppc * hwWays;
  }

  lemma {:induction false} SumTimes(a: nat, b: nat, n: nat)
    requires n > 0
    ensures (a + b) * n == a * n + b * n && (b * n == 0 <==> b == 0)
  {
  }

  // ----- arithmetic -----

  /** Pages between the beginnings of two runs of a way. */
  function Stride(c: Colors): nat
    requires c.Valid()
  {
    c.pagesPerColor * c.colorCount + (c.pagesPerColor - 1)
  }

  /** The loop's offset in closed form: page r of run q of a way. */
  lemma {:induction false} OffsetClosed(c: Colors, q: nat, r: nat)
    requires c.Valid() && r < c.pagesPerColor
    ensures Offset(c, q * c.pagesPerColor + r) == q * Stride(c) + r
    decreases q, r
  {
    var ppc := c.pagesPerColor;
    var k := q * ppc + r;
    DivModUnique(q, r, ppc);
    if r > 0 {
      OffsetClosed(c, q, r - 1);
    } else if q > 0 {
      assert k - 1 == (q - 1) * ppc + (ppc - 1);
      OffsetClosed(c, q - 1, ppc - 1);
      assert (q - 1) * Stride(c) + Stride(c) == q * Stride(c);
    }
  }

  lemma {:induction false} PlacementClosed(c: Colors, way: nat, k: nat)
    requires c.Valid()
    ensures var q, r := k / c.pagesPerColor, k % c.pagesPerColor;
            Placement(c, way, k) == q * Stride(c) + (way * c.pagesPerColor + r)
  {
    var q, r := k / c.pagesPerColor, k % c.pagesPerColor;
    assert k == q * c.pagesPerColor + r;
    OffsetClosed(c, q, r);
  }

  lemma {:induction false} RowBelowStride(c: Colors, way: nat, r: nat)
    requires c.Valid() && way < c.colorCount && r < c.pagesPerColor
    ensures way * c.pagesPerColor + r < Stride(c)
  {
    Scale(way + 1, c.colorCount, c.pagesPerColor);
    assert (way + 1) * c.pagesPerColor == way * c.pagesPerColor + c.pagesPerColor;
  }

  /** Different pages never share a frame: neither two pages of one way nor pages of two ways, for any
      number of pages per colour. */
  lemma {:induction false} PlacementInjective(c: Colors, way1: nat, k1: nat, way2: nat, k2: nat)
    requires c.Valid() && way1 < c.colorCount && way2 < c.colorCount
    requires Placement(c, way1, k1) == Placement(c, way2, k2)
    ensures way1 == way2 && k1 == k2
  {
    var q1, r1, x1 := PlacementParts(c, way1, k1);
    var q2, r2, x2 := PlacementParts(c, way2, k2);
    SameDigits(q1, x1, q2, x2, Stride(c));
    SameDigits(way1, r1, way2, r2, c.pagesPerColor);
  }

  lemma {:induction false} PlacementParts(c: Colors, way: nat, k: nat) returns (q: nat, r: nat, x: nat)
    requires c.Valid() && way < c.colorCount
    ensures k == q * c.pagesPerColor + r && r < c.pagesPerColor
    ensures x == way * c.pagesPerColor + r && x < Stride(c) && Placement(c, way, k) == q * Stride(c) + x
  {
    q, r := k / c.pagesPerColor, k % c.pagesPerColor;
    x := way * c.pagesPerColor + r;
    DivModParts(k, c.pagesPerColor);
    PlacementClosed(c, way, k);
    RowBelowStride(c, way, r);
  }

  /** How many colours page k of a way lies beyond the way's own. */
  function Drift(c: Colors, k: nat): nat
    requires c.Valid()
  {
    var q: nat, r: nat, d: nat := k / c.pagesPerColor, k % c.pagesPerColor, c.pagesPerColor - 1;
    Scale(0, q, d);
    (q * d + r) / c.pagesPerColor
  }

  lemma {:induction false} ColorOfPlacement(c: Colors, way: nat, k: nat)
    requires c.Valid()
    ensures ColorOf(c, Placement(c, way, k)) == (way + Drift(c, k)) % c.colorCount
  {
    var ppc, n := c.pagesPerColor, c.colorCount;
    var q, r, drift := k / ppc, k % ppc, Drift(c, k);
    var y := q * (ppc - 1) + r;
    DivModParts(y, ppc);
    PlacementClosed(c, way, k);
    Regroup(q, r, ppc, n, way, drift, y % ppc);
    DivModUnique(q * n + way + drift, y % ppc, ppc);
    ModAddMultiple(way + drift, q, n);
  }

  lemma {:induction false} Regroup(q: nat, r: nat, ppc: nat, n: nat, way: nat, drift: nat, rest: nat)
    requires ppc > 0 && q * (ppc - 1) + r == drift * ppc + rest
    ensures q * (ppc * n + (ppc - 1)) + (way * ppc + r) == (q * n + way + drift) * ppc + rest
  {
    assert q * (ppc * n + (ppc - 1)) == q * (ppc * n) + q * (ppc - 1);
    assert q * (ppc * n) == q * n * ppc;
    assert (q * n + way + drift) * ppc == q * n * ppc + way * ppc + drift * ppc;
  }

  lemma {:induction false} ModAddMultiple(x: nat, q: nat, n: nat)
    requires n > 0
    ensures (q * n + x) % n == x % n
  {
    var y, r := x / n, x % n;
    assert q * n + x == (q + y) * n + r;
    DivModUnique(q + y, r, n);
    DivModUnique(y, r, n);
  }

  /** Page k of a way lies in the colour the way stands for, exactly when its drift is a whole number
      of turns. */
  lemma {:induction false} InOwnColor(c: Colors, way: nat, k: nat)
    requires c.Valid() && way < c.colorCount
    ensures ColorOf(c, Placement(c, way, k)) == way <==> Drift(c, k) % c.colorCount == 0
  {
    ColorOfPlacement(c, way, k);
    ShiftModulo(way, Drift(c, k), c.colorCount);
  }

  lemma {:induction false} ShiftModulo(x: nat, d: nat, n: nat)
    requires x < n
    ensures (x + d) % n == x <==> d % n == 0
  {
    var turns, part := d / n, d % n;
    assert turns * n + part == d;
    if x + part < n {
      DivModUnique(turns, x + part, n);
    } else {
      assert (turns + 1) * n == turns * n + n;
      DivModUnique(turns + 1, x + part - n, n);
    }
  }

  /** The colour promise, "all pages of a way lie in its colour", holds for all ways exactly when there
      is one page per colour, or only one colour, or at most one hardware way.  The configured value
      of two pages per colour breaks it. */
  lemma {:induction false} ConfinedExactlyWhen(c: Colors)
    requires c.Valid()
    ensures (forall way, k :: 0 <= way < c.colorCount && 0 <= k < c.pagesPerColor * c.hwWays ==>
               ColorOf(c, Placement(c, way, k)) == way)
        <==> c.pagesPerColor == 1 || c.colorCount == 1 || c.hwWays <= 1
  {
    var ppc, n := c.pagesPerColor, c.colorCount;
    if ppc == 1 || n == 1 || c.hwWays <= 1 {
      forall way, k | 0 <= way < n && 0 <= k < ppc * c.hwWays ensures ColorOf(c, Placement(c, way, k)) == way {
        InOwnColor(c, way, k);
        NoDrift(c, k);
      }
    } else {
      var k := ppc + (ppc - 1);
      Scale(2, c.hwWays, ppc);
      DivModUnique(1, ppc - 1, ppc);
      DivModUnique(1, ppc - 2, ppc);
      assert Drift(c, k) == 1;
      InOwnColor(c, 0, k);
      assert ColorOf(c, Placement(c, 0, k)) != 0;
    }
  }

  lemma {:induction false} NoDrift(c: Colors, k: nat)
    requires c.Valid() && k < c.pagesPerColor * c.hwWays
    requires c.pagesPerColor == 1 || c.colorCount == 1 || c.hwWays <= 1
    ensures Drift(c, k) % c.colorCount == 0
  {
    if c.pagesPerColor != 1 && c.colorCount != 1 {
      DivModUnique(0, k, c.pagesPerColor);
    }
  }

  // ----- the moves -----

  /** Pages that begin in [start, end), for a page-aligned start. */
  function PagesBetween(start: nat, end: nat): nat {
    if end <= start then 0 else (end - start + (PAGE_SIZE - 1)) / PAGE_SIZE
  }

  /** The address rounded down to its page. */
  function PageStart(address: nat): (a: nat)
    ensures a % PAGE_SIZE == 0 && a / PAGE_SIZE == address / PAGE_SIZE
  {
    address / PAGE_SIZE * PAGE_SIZE
  }

  lemma {:induction false} MorePages(start: nat, end: nat, k: nat)
    requires start % PAGE_SIZE == 0
    ensures start + PAGE_SIZE * k < end <==> k < PagesBetween(start, end)
    ensures (start + PAGE_SIZE * k) / PAGE_SIZE == start / PAGE_SIZE + k
  {
  }

  /** The frames of the first n pages of a way. */
  function WayFrames(c: Colors, colorsStart: nat, way: nat, n: nat): (f: seq<nat>)
    requires c.Valid()
    ensures |f| == n && forall k :: 0 <= k < n ==> f[k] == colorsStart + Placement(c, way, k)
  {
    seq(n, k requires 0 <= k => colorsStart + Placement(c, way, k))
  }

  /** The original frames of n pages: every page at its own number. */
  function HomeFrames(first: nat, n: nat): (f: seq<nat>)
    ensures |f| == n && forall k :: 0 <= k < n ==> f[k] == first + k
  {
    seq(n, k requires 0 <= k => first + k)
  }

  /** The first n pages from `first` on are cacheable, or none of them is; the others are as before, except for
      the target pages and the dummy page. */
  ghost predicate Marked(before: seq<Mapping>, after: seq<Mapping>, first: nat, n: nat, targets: seq<nat>, dummy: nat, cacheable: bool)
  {
    && |after| == |before| && first + n <= |before|
    && (forall u :: first <= u < first + n ==> (after[u].cacheable <==> cacheable))
    && forall u :: 0 <= u < |before| && !(first <= u < first + n) && u !in targets && u != dummy ==> after[u] == before[u]
  }

  lemma {:induction false} MarksMore(before: seq<Mapping>, middle: seq<Mapping>, after: seq<Mapping>, first: nat, n: nat,
                                     targets: seq<nat>, dummy: nat, cacheable: bool)
    requires Marked(before, middle, first, n, targets, dummy, cacheable) && n < |targets|
    requires Moved(middle, after, first + n, targets[n], cacheable, dummy) && !(first <= dummy < first + |targets|)
    ensures Marked(before, after, first, n + 1, targets, dummy, cacheable)
  {
    assert targets[n] in targets;
  }

  class CacheColoring {
    const mmu: GenericMMU
    const colors: Colors
    const mColorsStart: nat              // as a frame number

    ghost predicate Valid()
      reads this, mmu
    {
      colors.Valid() && mmu.Valid()
    }

    constructor (mmu: GenericMMU, colors: Colors, colorsStart: nat)
      requires colors.Valid() && mmu.Valid()
      ensures Valid() && this.mmu == mmu && this.colors == colors && mColorsStart == colorsStart
    {
      this.mmu, this.colors, mColorsStart := mmu, colors, colorsStart;
    }

    /** The pages and frames a move touches exist, and the dummy page is none of them. */
    ghost predicate Movable(first: nat, targets: seq<nat>, dummy: nat)
      reads this, mmu
    {
      && first + |targets| <= |mmu.table|
      && (forall k :: 0 <= k < |targets| ==> targets[k] < mmu.mem.Length0 && targets[k] < |mmu.table|)
      && dummy < |mmu.table| && mmu.table[dummy].frame == dummy && !(first <= dummy < first + |targets|)
    }

    /** The k-th move of a row of moves. */
    method MoveNth(v: nat, p: nat, cacheable: bool, dummy: nat, ghost m: Memory, ghost before: seq<Mapping>,
                   ghost first: nat, ghost targets: seq<nat>, ghost k: nat)
      requires Valid() && Mapped(m) && |m.frameOf| == |mmu.table| && |m.content| == mmu.mem.Length0
      requires Movable(first, targets, dummy)
      requires k < |targets| && v == first + k && p == targets[k]
      requires mmu.View() == MoveAll(m, first, targets[..k]) && Marked(before, mmu.table, first, k, targets, dummy, cacheable)
      modifies mmu, mmu.mem
      ensures Valid() && Movable(first, targets, dummy) && |m.frameOf| == |mmu.table|
      ensures mmu.View() == MoveAll(m, first, targets[..k + 1])
      ensures Marked(before, mmu.table, first, k + 1, targets, dummy, cacheable)
    {
      ghost var middle := mmu.table;
      mmu.MovePage(v, p, cacheable, dummy);
      MarksMore(before, middle, mmu.table, first, k, targets, dummy, cacheable);
      assert targets[..k + 1][..k] == targets[..k];
    }

    /** Moves one page into the colour, to be cached. */
    method PrefetchPage(currentPage: nat, way: nat, pageOffset: nat, dummy: nat, ghost m: Memory, ghost before: seq<Mapping>,
                        ghost first: nat, ghost targets: seq<nat>, ghost k: nat)
      requires Valid() && Mapped(m) && |m.frameOf| == |mmu.table| && |m.content| == mmu.mem.Length0
      requires Movable(first, targets, dummy)
      requires k < |targets| && targets[k] == mColorsStart + (way * colors.pagesPerColor + pageOffset)
      requires currentPage / PAGE_SIZE == first + k
      requires mmu.View() == MoveAll(m, first, targets[..k]) && Marked(before, mmu.table, first, k, targets, dummy, true)
      modifies mmu, mmu.mem
      ensures Valid() && Movable(first, targets, dummy) && |m.frameOf| == |mmu.table|
      ensures mmu.View() == MoveAll(m, first, targets[..k + 1])
      ensures Marked(before, mmu.table, first, k + 1, targets, dummy, true)
    {
      MoveNth(currentPage / PAGE_SIZE, mColorsStart + (way * colors.pagesPerColor + pageOffset), true, dummy,
              m, before, first, targets, k);
    }

    /** Goes to the colour's next run of pages when the current one is used up. */
    method NextOffset(colorOffset: nat, pageOffset: nat) returns (next: nat)
      requires colors.Valid() && colorOffset > 0 && pageOffset == Offset(colors, colorOffset - 1)
      ensures next == Offset(colors, colorOffset)
    {
      if colorOffset % colors.pagesPerColor == 0 {
        next := pageOffset + colors.pagesPerColor * colors.colorCount;
      } else {
        next := pageOffset + 1;
      }
    }

    /** Moves the pages of [start, end) into the colour, with a running offset.  The start address is
        rounded down to its page. */
    method PrefetchDataToWay(start: nat, end: nat, way: nat, dummy: nat)
      requires Valid()
      requires Movable(start / PAGE_SIZE, WayFrames(colors, mColorsStart, way, PagesBetween(PageStart(start), end)), dummy)
      modifies mmu, mmu.mem
      ensures Valid() && |mmu.table| == old(|mmu.table|) && mmu.table[dummy].frame == dummy
      ensures mmu.View() == MoveAll(old(mmu.View()), start / PAGE_SIZE,
                                    WayFrames(colors, mColorsStart, way, PagesBetween(PageStart(start), end)))
      ensures var first, n := start / PAGE_SIZE, PagesBetween(PageStart(start), end);
              && (forall u :: first <= u < first + n ==> mmu.table[u].cacheable)
              && Marked(old(mmu.table), mmu.table, first, n, WayFrames(colors, mColorsStart, way, n), dummy, true)
    {
      var aligned := PageStart(start);
      PrefetchPages(aligned, end, way, dummy, start / PAGE_SIZE, WayFrames(colors, mColorsStart, way, PagesBetween(aligned, end)));
    }

    method PrefetchPages(start: nat, end: nat, way: nat, dummy: nat, ghost first: nat, ghost targets: seq<nat>)
      requires Valid() && Movable(first, targets, dummy)
      requires start % PAGE_SIZE == 0 && first == start / PAGE_SIZE && |targets| == PagesBetween(start, end)
      requires targets == WayFrames(colors, mColorsStart, way, |targets|)
      modifies mmu, mmu.mem
      ensures Valid() && Movable(first, targets, dummy) && |mmu.table| == old(|mmu.table|)
      ensures mmu.View() == MoveAll(old(mmu.View()), first, targets)
      ensures Marked(old(mmu.table), mmu.table, first, |targets|, targets, dummy, true)
    {
      ghost var m, before := mmu.View(), mmu.table;
      var currentPage := start;
      var colorOffset, pageOffset := 0, 0;
      MorePages(start, end, 0);
      while currentPage < end
        invariant Valid() && Movable(first, targets, dummy) && |m.frameOf| == |mmu.table|
        invariant colorOffset <= |targets| && currentPage == start + PAGE_SIZE * colorOffset
        invariant currentPage < end <==> colorOffset < |targets|
        invariant currentPage / PAGE_SIZE == first + colorOffset
        invariant pageOffset == Offset(colors, colorOffset)
        invariant mmu.View() == MoveAll(m, first, targets[..colorOffset])
        invariant Marked(before, mmu.table, first, colorOffset, targets, dummy, true)
        decreases |targets| - colorOffset
      {
        PrefetchPage(currentPage, way, pageOffset, dummy, m, before, first, targets, colorOffset);
        currentPage := currentPage + PAGE_SIZE;
        colorOffset := colorOffset + 1;
        pageOffset := NextOffset(colorOffset, pageOffset);
        MorePages(start, end, colorOffset);
      }
      assert targets[..|targets|] == targets;
    }

    /** Moves the pages of the recorded range [start, end) back to their own frames. */
    method EvictCacheWay(start: nat, end: nat, dummy: nat)
      requires Valid() && start % PAGE_SIZE == 0
      requires Movable(start / PAGE_SIZE, HomeFrames(start / PAGE_SIZE, PagesBetween(start, end)), dummy)
      modifies mmu, mmu.mem
      ensures Valid() && |mmu.table| == old(|mmu.table|) && mmu.table[dummy].frame == dummy
      ensures mmu.View() == MoveAll(old(mmu.View()), start / PAGE_SIZE,
                                    HomeFrames(start / PAGE_SIZE, PagesBetween(start, end)))
      ensures forall u :: 0 <= u < |mmu.table| && u != dummy ==>
                if start / PAGE_SIZE <= u < start / PAGE_SIZE + PagesBetween(start, end) then !mmu.table[u].cacheable
                else mmu.table[u] == old(mmu.table[u])
    {
      ghost var first, targets, m := start / PAGE_SIZE, HomeFrames(start / PAGE_SIZE, PagesBetween(start, end)), mmu.View();
      ghost var before := mmu.table;
      var currentPage := start;
      ghost var k := 0;
      MorePages(start, end, 0);
      while currentPage < end
        invariant Valid() && Movable(first, targets, dummy) && |m.frameOf| == |mmu.table|
        invariant k <= |targets| && currentPage == start + PAGE_SIZE * k
        invariant currentPage < end <==> k < |targets|
        invariant currentPage / PAGE_SIZE == first + k
        invariant mmu.View() == MoveAll(m, first, targets[..k]) && Marked(before, mmu.table, first, k, targets, dummy, false)
        decreases |targets| - k
      {
        MoveNth(currentPage / PAGE_SIZE, currentPage / PAGE_SIZE, false, dummy, m, before, first, targets, k);
        currentPage := currentPage + PAGE_SIZE;
        k := k + 1;
        MorePages(start, end, k);
      }
      assert targets[..|targets|] == targets;
    }
  }
}
