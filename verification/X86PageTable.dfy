/** The four-level AMD64 page table of arch/x86/driver/X86Pagetable.cc and the walks of X86MMU.cc
    (AMD64 Architecture Programmer's Manual, volume 2, section 5.3.3).  The four tables lie one after
    the other in memory; an entry is a 64-bit word. */
module X86PageTables {
  import opened Arithmetic
  import opened PageTables

  const PML4_ENTRIES: nat := 512
  const PDPE_ENTRIES: nat := 512
  const MAX_MEMORY_SIZE: nat := 4         // in GB
  const PDE_ENTRIES: nat := 2048
  const PTE_ENTRIES: nat := 0x10_0000

  // position of each table in the block of words
  const PML4: nat := 0
  const PDPE: nat := 512
  const PDE: nat := 1024
  const PTE: nat := 3072
  const TABLE_WORDS: nat := 0x10_0C00

  const FRAMES: nat := 0x100_0000_0000    // 2^40: width of an entry's base address field

  // ----- entry fields -----

  /** Bits 12 to 51 of an entry: the frame number of the next table or of the page. */
  function Frame(entry: nat): (f: nat)
    ensures f < FRAMES
  {
    entry / 4096 % FRAMES
  }

  /** Bit 0: the processor's walk goes on through the entry. */
  predicate Present(entry: nat) {
    entry % 2 == 1
  }

  function Pwt(entry: nat): nat {
    entry / 8 % 2
  }

  function Pcd(entry: nat): nat {
    entry / 16 % 2
  }

  function SetFrame(entry: nat, frame: nat): nat
    requires frame < FRAMES
  {
    entry % 4096 + frame * 4096 + entry / (4096 * FRAMES) * (4096 * FRAMES)
  }

  /** Write-through and cache-disable, bits 3 and 4. */
  function SetCacheBits(entry: nat, bit: nat): nat
    requires bit < 2
  {
    entry % 8 + bit * 8 + bit * 16 + entry / 32 * 32
  }

  lemma {:induction false} FrameIsSet(entry: nat, frame: nat)
    requires frame < FRAMES
    ensures Frame(SetFrame(entry, frame)) == frame
    ensures SetFrame(entry, frame) % 8 == entry % 8
  {
    var e, low, above := SetFrame(entry, frame), entry % 4096, frame + FRAMES * (entry / (4096 * FRAMES));
    assert e == low + 4096 * above;
    assert e / 4096 == above;
    LowBits(low, above);
    LowBits(low, entry / 4096);
  }

  lemma {:induction false} LowBits(low: nat, above: nat)
    ensures (low + 4096 * above) % 8 == low % 8
  {
  }

  lemma {:induction false} CacheBitsAreSet(entry: nat, bit: nat)
    requires bit < 2
    ensures Pwt(SetCacheBits(entry, bit)) == bit && Pcd(SetCacheBits(entry, bit)) == bit
    ensures Frame(SetCacheBits(entry, bit)) == Frame(entry)
    ensures SetCacheBits(entry, bit) % 8 == entry % 8
  {
    var e, low, high := SetCacheBits(entry, bit), entry % 8, entry / 32;
    assert e == low + 24 * bit + 32 * high;
    assert e / 8 == 3 * bit + 4 * high && e / 16 == bit + 2 * high && e / 32 == high;
    Over4096(e);
    Over4096(entry);
  }

  lemma {:induction false} EntryIsSet(entry: nat, frame: nat, bit: nat)
    requires frame < FRAMES && bit < 2
    ensures var e := SetCacheBits(SetFrame(entry, frame), bit);
            Frame(e) == frame && Pwt(e) == bit && Pcd(e) == bit && e % 8 == entry % 8
  {
    FrameIsSet(entry, frame);
    CacheBitsAreSet(SetFrame(entry, frame), bit);
  }

  /** An entry with a new frame and new cache bits: the high bits and bits 5 to 11 and 0 to 2 are the old ones. */
  function NewWord(was: nat, frame: nat, cacheable: bool): nat {
    was / (4096 * FRAMES) * (4096 * FRAMES) + frame * 4096 + was % 4096 / 32 * 32 + (if cacheable then 0 else 24) + was % 8
  }

  lemma {:induction false} EntryWord(entry: nat, frame: nat, cacheable: bool)
    requires frame < FRAMES
    ensures SetCacheBits(SetFrame(entry, frame), if cacheable then 0 else 1) == NewWord(entry, frame, cacheable)
  {
    var low, above := entry % 4096, frame + FRAMES * (entry / (4096 * FRAMES));
    assert SetFrame(entry, frame) == low + 4096 * above;
    LowBits(low, above);
    LowBits(low, entry / 4096);
    assert (low + 4096 * above) / 32 == low / 32 + 128 * above;
  }

  lemma {:induction false} PresenceKept(was: nat, now: nat)
    requires now % 8 == was % 8 && Present(was)
    ensures Present(now)
  {
    DivModUnique(now / 8 * 4 + now % 8 / 2, now % 8 % 2, 2);
    DivModUnique(was / 8 * 4 + was % 8 / 2, was % 8 % 2, 2);
  }

  lemma {:induction false} Over4096(x: nat)
    ensures x / 4096 == x / 32 / 128
  {
  }

  /** A table entry: a page-aligned address with flags in the low bits. */
  function Entry(address: nat, flags: nat): nat
    requires address % 4096 == 0 && flags < 4096
  {
    address + flags
  }

  lemma {:induction false} EntryParts(flags: nat, page: nat)
    requires flags < 4096
    ensures (flags + 4096 * page) / 4096 == page && (flags + 4096 * page) % 2 == flags % 2
  {
    DivModUnique(page, flags, 4096);
    DivModUnique(flags / 2 + 2048 * page, flags % 2, 2);
  }

  lemma {:induction false} EntryFrame(address: nat, flags: nat)
    requires address % 4096 == 0 && flags < 4096 && address < 4096 * FRAMES
    ensures Frame(Entry(address, flags)) * 4096 == address
    ensures Present(Entry(address, flags)) <==> flags % 2 == 1
  {
    var page := address / 4096;
    assert Entry(address, flags) == flags + 4096 * page;
    EntryParts(flags, page);
  }

  lemma {:induction false} PageEntry(page: nat)
    requires page < PAGES
    ensures var e := Entry(4096 * page, 0x1F); Frame(e) == page && Pcd(e) == 1 && Present(e)
  {
    var e := Entry(4096 * page, 0x1F);
    assert e / 4096 == page && e / 16 == 256 * page + 1;
  }

  /** The index digits of an address below 4 GB. */
  lemma {:induction false} Digits(address: nat)
    requires address < ADDRESS_LIMIT
    ensures address / 0x80_0000_0000 % 512 == 0
    ensures address / 0x4000_0000 % 512 < MAX_MEMORY_SIZE
    ensures 512 * (address / 0x4000_0000 % 512) + address / 0x20_0000 % 512 == address / 0x20_0000 < PDE_ENTRIES
    ensures 512 * (address / 0x20_0000) + address / 4096 % 512 == address / 4096 < PTE_ENTRIES
  {
    assert address / 0x20_0000 / 512 == address / 0x4000_0000;
    assert address / 4096 / 512 == address / 0x20_0000;
  }

  class X86Pagetable {
    const base: nat           // address of pml4
    const words: array<nat>

    ghost predicate Valid()
      reads this
    {
      words.Length == TABLE_WORDS && base % 4096 == 0 && base + 8 * TABLE_WORDS <= 4096 * FRAMES
    }

    /** The upper three levels lead every address below 4 GB to its entry in the last one, and all entries on
        the way are present. */
    ghost predicate Linked()
      requires Valid()
      reads this, words
    {
      && Present(words[PML4]) && Frame(words[PML4]) * 4096 == base + 8 * PDPE
      && (forall i :: PDPE <= i < PDPE + MAX_MEMORY_SIZE ==>
            Present(words[i]) && Frame(words[i]) * 4096 == base + 8 * PDE + 4096 * (i - PDPE))
      && (forall i :: PDE <= i < PDE + PDE_ENTRIES ==>
            Present(words[i]) && Frame(words[i]) * 4096 == base + 8 * PTE + 4096 * (i - PDE))
      && (forall i :: PTE <= i < PTE + PTE_ENTRIES ==> Present(words[i]))
    }

    ghost function Flat(): (flat: seq<Mapping>)
      requires Valid()
      reads this, words
      ensures |flat| == PAGES
      ensures forall p :: 0 <= p < PAGES ==> flat[p] == Decode(words[PTE + p])
    {
      seq(PAGES, p requires 0 <= p < PAGES && Valid() reads this, words => Decode(words[PTE + p]))
    }

    static function Decode(entry: nat): Mapping {
      Mapping(Frame(entry), Pcd(entry) == 0 && Pwt(entry) == 0)
    }

    /** The position of the word at a physical address inside the tables. */
    function At(address: nat): (i: nat)
      requires base <= address
    {
      (address - base) / 8
    }

    /** Consecutive entries for consecutive pages from `target` on. */
    method FillEntries(first: nat, count: nat, target: nat, flags: nat)
      requires first + count <= words.Length && target % 4096 == 0 && flags < 4096
      modifies words
      ensures forall j :: first <= j < first + count ==> words[j] == Entry(target + 4096 * (j - first), flags)
      ensures forall j :: 0 <= j < words.Length && !(first <= j < first + count) ==> words[j] == old(words[j])
    {
      for i := 0 to count
        invariant forall j :: first <= j < first + i ==> words[j] == Entry(target + 4096 * (j - first), flags)
        invariant forall j :: 0 <= j < words.Length && !(first <= j < first + i) ==> words[j] == old(words[j])
      {
        words[first + i] := Entry(target + i * 0x1000, flags);
      }
    }

    /** Entries without the present bit. */
    method FillAbsent(first: nat, count: nat)
      requires first + count <= words.Length
      modifies words
      ensures forall j :: first <= j < first + count ==> words[j] == 0x6 && !Present(words[j])
      ensures forall j :: 0 <= j < words.Length && !(first <= j < first + count) ==> words[j] == old(words[j])
    {
      for i := 0 to count
        invariant forall j :: first <= j < first + i ==> words[j] == 0x6
        invariant forall j :: 0 <= j < words.Length && !(first <= j < first + i) ==> words[j] == old(words[j])
      {
        words[first + i] := 0x6;
      }
    }

    /** What every word of the first two tables is after filling; bit 0 says whether it is present. */
    ghost predicate UpperFilled()
      requires Valid()
      reads this, words
    {
      && words[PML4] == base + 8 * PDPE + 0x7
      && (forall i :: PML4 < i < PML4 + PML4_ENTRIES ==> words[i] == 0x6 && words[i] % 2 == 0)
      && (forall i :: PDPE <= i < PDPE + MAX_MEMORY_SIZE ==> words[i] == base + 8 * PDE + 4096 * (i - PDPE) + 0x7)
      && (forall i :: PDPE + MAX_MEMORY_SIZE <= i < PDPE + PDPE_ENTRIES ==> words[i] == 0x6 && words[i] % 2 == 0)
    }

    ghost predicate LowerFilled()
      requires Valid()
      reads this, words
    {
      && (forall i :: PDE <= i < PDE + PDE_ENTRIES ==> words[i] == base + 8 * PTE + 4096 * (i - PDE) + 0x7)
      && (forall i :: PTE <= i < PTE + PTE_ENTRIES ==> words[i] == 4096 * (i - PTE) + 0x1F)
    }

    /** Filled tables are linked, with every entry on the way present, and map every page to itself. */
    lemma {:induction false} FilledIsLinked()
      requires Valid() && UpperFilled() && LowerFilled()
      ensures Linked() && Identity(Flat(), false)
    {
      EntryFrame(base + 8 * PDPE, 0x7);
      forall i | PDPE <= i < PDPE + MAX_MEMORY_SIZE
        ensures Present(words[i]) && Frame(words[i]) * 4096 == base + 8 * PDE + 4096 * (i - PDPE)
      {
        EntryFrame(base + 8 * PDE + 4096 * (i - PDPE), 0x7);
      }
      forall i | PDE <= i < PDE + PDE_ENTRIES
        ensures Present(words[i]) && Frame(words[i]) * 4096 == base + 8 * PTE + 4096 * (i - PDE)
      {
        EntryFrame(base + 8 * PTE + 4096 * (i - PDE), 0x7);
      }
      forall i | PTE <= i < PTE + PTE_ENTRIES ensures Present(words[i]) && Decode(words[i]) == Mapping(i - PTE, false) {
        PageEntry(i - PTE);
      }
    }

    /** Fills all four levels; the last one maps every page to itself, with flags 0x1F. */
    method FillLinear()
      requires Valid()
      modifies words
      ensures UpperFilled() && LowerFilled()
      ensures Linked() && Identity(Flat(), false)
    {
      FillEntries(PML4, 1, base + 8 * PDPE, 0x7);
      FillAbsent(PML4 + 1, PML4_ENTRIES - 1);
      FillEntries(PDPE, MAX_MEMORY_SIZE, base + 8 * PDE, 0x7);
      FillAbsent(PDPE + MAX_MEMORY_SIZE, PDPE_ENTRIES - MAX_MEMORY_SIZE);
      FillEntries(PDE, PDE_ENTRIES, base + 8 * PTE, 0x7);
      FillEntries(PTE, PTE_ENTRIES, 0, 0x1F);
      FilledIsLinked();
    }

    /** The manual walk: each level's entry gives the next table's address, nine address bits the
        index.  It ends at the entry that a flat table would have at address >> 12. */
    method GetPTEEntryFromAddress(address: nat) returns (i: nat)
      requires Valid() && Linked() && address < ADDRESS_LIMIT
      ensures i == PTE + address / PAGE_SIZE && i < TABLE_WORDS && Present(words[i])
    {
      Digits(address);
      var index := address / 0x80_0000_0000 % 512;
      var pml4Entry := words[PML4 + index];
      var pdpeAddress := Frame(pml4Entry) * 4096;
      index := address / 0x4000_0000 % 512;
      var pdpeEntry := words[At(pdpeAddress) + index];
      var pdeAddress := Frame(pdpeEntry) * 4096;
      assert At(pdeAddress) == PDE + 512 * index;
      index := address / 0x20_0000 % 512;
      var pdeEntry := words[At(pdeAddress) + index];
      var pteAddress := Frame(pdeEntry) * 4096;
      assert At(pteAddress) == PTE + 512 * (address / 0x20_0000);
      index := address / 4096 % 512;
      i := At(pteAddress) + index;
    }

    method GetPhysicalAddressForVirtual(virtualPage: nat) returns (address: nat)
      requires Valid() && Linked() && virtualPage < ADDRESS_LIMIT
      ensures address == Flat()[virtualPage / PAGE_SIZE].frame * PAGE_SIZE
    {
      var i := GetPTEEntryFromAddress(virtualPage);
      address := Frame(words[i]) * 4096;
    }

    /** Rewrites the frame and the two cache bits of one entry. */
    method SetEntry(i: nat, frame: nat, cacheable: bool)
      requires i < words.Length && frame < FRAMES
      modifies words
      ensures words[i] == NewWord(old(words[i]), frame, cacheable) && words[i] % 8 == old(words[i]) % 8
      ensures Decode(words[i]) == Mapping(frame, cacheable)
      ensures forall j :: 0 <= j < words.Length && j != i ==> words[j] == old(words[j])
    {
      var bit := if cacheable then 0 else 1;
      EntryIsSet(words[i], frame, bit);
      EntryWord(words[i], frame, cacheable);
      words[i] := SetCacheBits(SetFrame(words[i], frame), bit);
    }

    /** Changes one entry: in the flat table, one page. */
    method MapVirtualPageToPhysicalAddress(virtualPage: nat, physicalPage: nat, cacheable: bool)
      requires Valid() && Linked() && virtualPage < ADDRESS_LIMIT && physicalPage < 4096 * FRAMES
      modifies words
      ensures Linked()
      ensures Flat() == Remap(old(Flat()), virtualPage / PAGE_SIZE, physicalPage / PAGE_SIZE, cacheable)
      ensures forall j :: 0 <= j < TABLE_WORDS && j != PTE + virtualPage / PAGE_SIZE ==> words[j] == old(words[j])
      ensures words[PTE + virtualPage / PAGE_SIZE]
              == NewWord(old(words[PTE + virtualPage / PAGE_SIZE]), physicalPage / PAGE_SIZE, cacheable)
    {
      var i := GetPTEEntryFromAddress(virtualPage);
      ghost var was := words[i];
      SetEntry(i, physicalPage / 4096, cacheable);
      PresenceKept(was, words[i]);
    }
  }
}
