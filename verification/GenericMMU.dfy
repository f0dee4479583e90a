/** Moving pages: driver/GenericMMU.cc over a flat page table and word-addressed physical memory. */
module PagedMemory {
  import opened PageTables

  type Word = bv64

  const PAGE_WORDS: nat := 512

  /** What the MMU shows: for every virtual page its frame, for every frame its content. */
  datatype Memory = Memory(frameOf: seq<nat>, content: seq<seq<Word>>)

  predicate Mapped(m: Memory)
  {
    forall v :: 0 <= v < |m.frameOf| ==> m.frameOf[v] < |m.content|
  }

  /** What a program sees on virtual page v. */
  function See(m: Memory, v: nat): seq<Word>
    requires v < |m.frameOf| && m.frameOf[v] < |m.content|
  {
    m.content[m.frameOf[v]]
  }

  /** The effect of moving virtual page v to frame p. */
  function Move(m: Memory, v: nat, p: nat): (m': Memory)
    requires v < |m.frameOf| && m.frameOf[v] < |m.content| && p < |m.content|
    ensures |m'.frameOf| == |m.frameOf| && |m'.content| == |m.content|
  {
    Memory(m.frameOf[v := p], m.content[p := See(m, v)])
  }

  /** Moving the pages from `first` on, in order, to the given frames. */
  function MoveAll(m: Memory, first: nat, targets: seq<nat>): (m': Memory)
    requires Mapped(m) && first + |targets| <= |m.frameOf|
    requires forall i :: 0 <= i < |targets| ==> targets[i] < |m.content|
    ensures |m'.frameOf| == |m.frameOf| && |m'.content| == |m.content| && Mapped(m')
  {
    if targets == [] then m
    else
      var n := |targets| - 1;
      Move(MoveAll(m, first, targets[..n]), first + n, targets[n])
  }

  /** What moving page v to frame p makes of the page table: the page has the frame and the cacheability asked
      for.  Besides, the page at address p gets the same cacheability if it maps to itself, and otherwise the
      dummy page, which stands in for it, ends mapped to itself and not cacheable. */
  ghost predicate Moved(before: seq<Mapping>, after: seq<Mapping>, v: nat, p: nat, cacheable: bool, dummy: nat)
  {
    && |after| == |before| && v < |before| && p < |before|
    && after[v].frame == p && (after[v].cacheable <==> cacheable)
    && forall u :: 0 <= u < |before| && u != v ==>
         after[u] == if before[p].frame == p && u == p then Mapping(p, cacheable)
                     else if before[p].frame != p && u == dummy then Mapping(dummy, false)
                     else before[u]
  }

  class GenericMMU {
    const mem: array2<Word>            // frame, word within the frame
    var table: seq<Mapping>            // the page table, per virtual page

    ghost predicate Valid()
      reads this
    {
      && mem.Length1 == PAGE_WORDS
      && forall v :: 0 <= v < |table| ==> table[v].frame < mem.Length0
    }

    ghost function Content(f: nat): seq<Word>
      requires f < mem.Length0
      reads mem
    {
      seq(mem.Length1, i requires 0 <= i < mem.Length1 reads mem => mem[f, i])
    }

    ghost function View(): (m: Memory)
      requires Valid()
      reads this, mem
      ensures |m.frameOf| == |table| && |m.content| == mem.Length0 && Mapped(m)
    {
      Memory(seq(|table|, v requires 0 <= v < |table| reads this => table[v].frame),
             seq(mem.Length0, f requires 0 <= f < mem.Length0 reads mem => Content(f)))
    }

    method MapVirtualPageToPhysicalAddress(page: nat, frame: nat, cacheable: bool)
      requires Valid() && page < |table| && frame < mem.Length0
      modifies this
      ensures Valid() && table == Remap(old(table), page, frame, cacheable)
    {
      table := table[page := Mapping(frame, cacheable)];
    }

    /** Copies the page word by word through virtual addresses, then remaps it.  When the target frame
        is not mapped at its own address, the CPU's dummy page is put in front of it for the copy. */
    method MoveVirtualPageToPhysicalAddress(v: nat, p: nat, cacheable: bool, dummy: nat)
      requires Valid()
      requires v < |table| && p < |table| && p < mem.Length0
      requires dummy < |table| && dummy < mem.Length0 && dummy != v
      modifies this, mem
      ensures Valid()
      ensures table == if old(table)[p].frame != p
                       then Remap(Remap(old(table), v, p, cacheable), dummy, dummy, false)
                       else Remap(Remap(old(table), p, p, cacheable), v, p, cacheable)
      ensures forall f, i :: 0 <= f < mem.Length0 && 0 <= i < PAGE_WORDS ==>
                mem[f, i] == old(mem[if f == p then table[v].frame else f, i])
    {
      var originalPhysicalAddress := table[v].frame;
      MapVirtualPageToPhysicalAddress(v, originalPhysicalAddress, !cacheable);
      var dummyPage := table[p].frame != p;
      var source, destination := v, p;
      if dummyPage {
        MapVirtualPageToPhysicalAddress(dummy, p, cacheable);
        destination := dummy;
      } else {
        MapVirtualPageToPhysicalAddress(p, p, cacheable);
      }
      CopyPage(source, destination);
      MapVirtualPageToPhysicalAddress(v, p, cacheable);
      if dummyPage {
        MapVirtualPageToPhysicalAddress(dummy, dummy, false);
      }
    }

    /** The copy loop, reading and writing through the page table. */
    method CopyPage(source: nat, destination: nat)
      requires Valid() && source < |table| && destination < |table|
      modifies mem
      ensures forall f, i :: 0 <= f < mem.Length0 && 0 <= i < PAGE_WORDS ==>
                mem[f, i] == old(mem[if f == table[destination].frame then table[source].frame else f, i])
    {
      for j := 0 to PAGE_WORDS
        invariant forall f, i :: 0 <= f < mem.Length0 && 0 <= i < PAGE_WORDS ==>
                    mem[f, i] == old(mem[if f == table[destination].frame && i < j then table[source].frame else f, i])
      {
        mem[table[destination].frame, j] := mem[table[source].frame, j];
      }
    }

    /** For a page table that maps the dummy page to itself, the whole procedure is `Move`: no other
        page's mapping or content changes, and the moved page looks the same. */
    method MovePage(v: nat, p: nat, cacheable: bool, dummy: nat)
      requires Valid()
      requires v < |table| && p < |table| && p < mem.Length0
      requires dummy < |table| && dummy != v && table[dummy].frame == dummy
      modifies this, mem
      ensures Valid() && |table| == old(|table|) && table[dummy].frame == dummy
      ensures View() == Move(old(View()), v, p)
      ensures Moved(old(table), table, v, p, cacheable, dummy)
    {
      MoveVirtualPageToPhysicalAddress(v, p, cacheable, dummy);
      forall f | 0 <= f < mem.Length0 ensures Content(f) == old(Content(if f == p then table[v].frame else f)) {
      }
    }
  }
}
