/** The two-level ARMv7 page table of arch/armv7/driver/ARMv7PageTable.cc and the walk of ARMMMU.cc
    (ARM Architecture Reference Manual ARMv7-A, section B3.5).  Descriptors are 32-bit words. */
module ARMv7PageTables {
  import opened Arithmetic
  import opened PageTables

  const FIRST_LEVEL_ENTRIES: nat := 4096
  const SECOND_LEVEL_ENTRIES: nat := 256
  const FIRST_LEVEL_FLAGS: nat := 0x1
  const SECOND_LEVEL_FLAGS: nat := 0x402
  const WORDS: nat := 0x1_0000_0000

  /** Bits 10 to 31 of a first-level descriptor: where its second-level table is, in KB. */
  function TableBase(descriptor: nat): nat {
    descriptor / 1024
  }

  /** Bits 12 to 31 of a second-level descriptor. */
  function Frame(descriptor: nat): nat {
    descriptor / 4096
  }

  /** Type bits of a first-level descriptor: it refers to a second-level table. */
  predicate RefersToTable(descriptor: nat) {
    descriptor % 4 == 1
  }

  /** Type bits of a second-level descriptor: it maps a small page, which may be executed. */
  predicate SmallPage(descriptor: nat) {
    descriptor % 4 == 2
  }

  /** Bits 2 (bufferable) and 3 (cacheable). */
  function CacheBits(descriptor: nat): nat {
    descriptor / 4 % 4
  }

  function SetFrame(descriptor: nat, frame: nat): nat {
    descriptor % 4096 + frame * 4096
  }

  function SetCacheBits(descriptor: nat, cacheable: bool): nat {
    descriptor % 4 + (if cacheable then 12 else 0) + descriptor / 16 * 16
  }

  lemma {:induction false} LowFields(low: nat, bits: nat, high: nat)
    requires low < 4 && bits < 4
    ensures var d := low + 4 * bits + 16 * high; d % 4 == low && d / 4 % 4 == bits && d / 16 == high
  {
    assert (low + 4 * bits + 16 * high) / 4 == bits + 4 * high;
  }

  lemma {:induction false} FieldsAreSet(descriptor: nat, frame: nat, cacheable: bool)
    ensures var d := SetCacheBits(SetFrame(descriptor, frame), cacheable);
            && Frame(d) == frame && CacheBits(d) == (if cacheable then 3 else 0)
            && d % 4 == descriptor % 4
  {
    var f := SetFrame(descriptor, frame);
    FrameIsSet(descriptor, frame);
    LowFields(f % 4, if cacheable then 3 else 0, f / 16);
    Over4096(SetCacheBits(f, cacheable));
    Over4096(f);
  }

  lemma {:induction false} FrameIsSet(descriptor: nat, frame: nat)
    ensures SetFrame(descriptor, frame) / 4096 == frame && SetFrame(descriptor, frame) % 4 == descriptor % 4
  {
    LowBits(descriptor % 4096, frame);
    LowBits(descriptor % 4096, descriptor / 4096);
  }

  lemma {:induction false} LowBits(low: nat, above: nat)
    requires low < 4096
    ensures (low + 4096 * above) / 4096 == above && (low + 4096 * above) % 4 == low % 4
  {
    DivModUnique(above, low, 4096);
    DivModUnique(low / 4 + 1024 * above, low % 4, 4);
  }

  /** The new descriptor, bit by bit: bits 4 to 11 and the type bits are the old ones. */
  lemma {:induction false} DescriptorWord(descriptor: nat, frame: nat, cacheable: bool)
    ensures SetCacheBits(SetFrame(descriptor, frame), cacheable)
            == frame * 4096 + descriptor % 4096 / 16 * 16 + (if cacheable then 12 else 0) + descriptor % 4
  {
    var low := descriptor % 4096;
    FrameIsSet(descriptor, frame);
    assert (low + 4096 * frame) / 16 == low / 16 + 256 * frame;
  }

  lemma {:induction false} Over4096(x: nat)
    ensures x / 4096 == x / 16 / 256
  {
  }

  lemma {:induction false} PageDescriptor(page: nat)
    ensures var d := 4096 * page + SECOND_LEVEL_FLAGS; Frame(d) == page && CacheBits(d) == 0 && SmallPage(d)
  {
    var d := 4096 * page + SECOND_LEVEL_FLAGS;
    DivModUnique(page, SECOND_LEVEL_FLAGS, 4096);
    DivModUnique(1024 * page + 256, 2, 4);
    DivModUnique(256 * page + 64, 0, 4);
  }

  lemma {:induction false} TableDescriptor(table: nat)
    ensures var d := 1024 * table + FIRST_LEVEL_FLAGS; RefersToTable(d) && TableBase(d) == table
  {
    DivModUnique(table, FIRST_LEVEL_FLAGS, 1024);
    DivModUnique(256 * table, FIRST_LEVEL_FLAGS, 4);
  }

  lemma {:induction false} AlignedBase(base: nat)
    requires base % 0x1_0000 == 0
    ensures base == 1024 * (64 * (base / 0x1_0000))
  {
  }

  lemma {:induction false} Digits(address: nat)
    requires address < ADDRESS_LIMIT
    ensures address / 0x10_0000 < FIRST_LEVEL_ENTRIES
    ensures 256 * (address / 0x10_0000) + address / 4096 % 256 == address / 4096 < PAGES
  {
    assert address / 4096 / 256 == address / 0x10_0000;
  }

  class ARMv7PageTable {
    const secondLevelBase: nat           // address of secondLevelTable
    const firstLevelTable: array<nat>
    const secondLevelTable: array<nat>

    ghost predicate Valid()
      reads this
    {
      && firstLevelTable.Length == FIRST_LEVEL_ENTRIES
      && secondLevelTable.Length == FIRST_LEVEL_ENTRIES * SECOND_LEVEL_ENTRIES
      && firstLevelTable != secondLevelTable
      && secondLevelBase % 0x1_0000 == 0 && secondLevelBase + 4 * PAGES <= WORDS
    }

    /** Every first-level entry refers to its second-level table, and every second-level entry maps a page. */
    ghost predicate Linked()
      requires Valid()
      reads this, firstLevelTable, secondLevelTable
    {
      FirstLinked() && forall p :: 0 <= p < PAGES ==> SmallPage(secondLevelTable[p])
    }

    ghost predicate FirstLinked()
      requires Valid()
      reads this, firstLevelTable
    {
      forall i :: 0 <= i < FIRST_LEVEL_ENTRIES ==>
        RefersToTable(firstLevelTable[i]) && TableBase(firstLevelTable[i]) * 1024 == secondLevelBase + 1024 * i
    }

    ghost function Flat(): (flat: seq<Mapping>)
      requires Valid()
      reads this, secondLevelTable
      ensures |flat| == PAGES
      ensures forall p :: 0 <= p < PAGES ==> flat[p] == Decode(secondLevelTable[p])
    {
      seq(PAGES, p requires 0 <= p < PAGES && Valid() reads this, secondLevelTable => Decode(secondLevelTable[p]))
    }

    static function Decode(descriptor: nat): Mapping {
      Mapping(Frame(descriptor), CacheBits(descriptor) == 3)
    }

    /** The first loop of fillLinear, with a running table address. */
    method FillFirstLevel()
      requires Valid()
      modifies firstLevelTable
      ensures FirstLinked()
      ensures forall i :: 0 <= i < FIRST_LEVEL_ENTRIES ==> firstLevelTable[i] == secondLevelBase + 1024 * i + 0x1
    {
      var secondLevelStartAddress := secondLevelBase;
      for i := 0 to FIRST_LEVEL_ENTRIES
        invariant secondLevelStartAddress == secondLevelBase + 1024 * i
        invariant forall j :: 0 <= j < i ==> firstLevelTable[j] == secondLevelBase + 1024 * j + 0x1
      {
        firstLevelTable[i] := secondLevelStartAddress + FIRST_LEVEL_FLAGS;
        secondLevelStartAddress := secondLevelStartAddress + 4 * SECOND_LEVEL_ENTRIES;
      }
      AlignedBase(secondLevelBase);
      forall i | 0 <= i < FIRST_LEVEL_ENTRIES
        ensures RefersToTable(firstLevelTable[i]) && TableBase(firstLevelTable[i]) * 1024 == secondLevelBase + 1024 * i
      {
        TableDescriptor(64 * (secondLevelBase / 0x1_0000) + i);
      }
    }

    /** The second loop, with a running page address, which wraps after the last page. */
    method FillSecondLevel()
      requires Valid()
      modifies secondLevelTable
      ensures forall p :: 0 <= p < PAGES ==> secondLevelTable[p] == 4096 * p + 0x402
    {
      var pageAddress := 0;
      for i := 0 to FIRST_LEVEL_ENTRIES * SECOND_LEVEL_ENTRIES
        invariant pageAddress == if i < PAGES then 4096 * i else 0
        invariant forall j :: 0 <= j < i ==> secondLevelTable[j] == 4096 * j + 0x402
      {
        secondLevelTable[i] := pageAddress + SECOND_LEVEL_FLAGS;
        pageAddress := if pageAddress + 4096 == WORDS then 0 else pageAddress + 4096;
      }
    }

    /** Links every first-level entry to its 256 second-level entries and maps every page to itself. */
    method FillLinear()
      requires Valid()
      modifies firstLevelTable, secondLevelTable
      ensures Linked() && Identity(Flat(), false)
      ensures forall i :: 0 <= i < FIRST_LEVEL_ENTRIES ==> firstLevelTable[i] == secondLevelBase + 1024 * i + 0x1
      ensures forall p :: 0 <= p < PAGES ==> secondLevelTable[p] == 4096 * p + 0x402
    {
      FillFirstLevel();
      FillSecondLevel();
      forall p | 0 <= p < PAGES ensures SmallPage(secondLevelTable[p]) && Decode(secondLevelTable[p]) == Mapping(p, false) {
        PageDescriptor(p);
      }
    }

    /** The manual walk ends at the descriptor a flat table would have at address >> 12. */
    method GetSecondLevelPageTableEntryFromAddress(address: nat) returns (i: nat)
      requires Valid() && Linked() && address < ADDRESS_LIMIT
      ensures i == address / PAGE_SIZE && i < PAGES && SmallPage(secondLevelTable[i])
    {
      Digits(address);
      var index := address / 0x10_0000;
      var table := (TableBase(firstLevelTable[index]) * 1024 - secondLevelBase) / 4;
      assert table == 256 * index;
      index := address / 4096 % 256;
      i := table + index;
    }

    method GetPhysicalAddressForVirtual(virtualAddress: nat) returns (address: nat)
      requires Valid() && Linked() && virtualAddress < ADDRESS_LIMIT
      ensures address == Flat()[virtualAddress / PAGE_SIZE].frame * PAGE_SIZE + virtualAddress % PAGE_SIZE
    {
      var i := GetSecondLevelPageTableEntryFromAddress(virtualAddress);
      address := Frame(secondLevelTable[i]) * 4096 + virtualAddress % 4096;
    }

    method MapVirtualPageToPhysicalAddress(virtualPage: nat, physicalPage: nat, cacheable: bool)
      requires Valid() && Linked() && virtualPage < ADDRESS_LIMIT && physicalPage < ADDRESS_LIMIT
      modifies secondLevelTable
      ensures Linked()
      ensures Flat() == Remap(old(Flat()), virtualPage / PAGE_SIZE, physicalPage / PAGE_SIZE, cacheable)
      ensures forall j :: 0 <= j < PAGES && j != virtualPage / PAGE_SIZE ==> secondLevelTable[j] == old(secondLevelTable[j])
      ensures var was := old(secondLevelTable[virtualPage / PAGE_SIZE]);
              secondLevelTable[virtualPage / PAGE_SIZE]
              == physicalPage / 4096 * 4096 + was % 4096 / 16 * 16 + (if cacheable then 12 else 0) + was % 4
    {
      var i := GetSecondLevelPageTableEntryFromAddress(virtualPage);
      FieldsAreSet(secondLevelTable[i], physicalPage / 4096, cacheable);
      DescriptorWord(secondLevelTable[i], physicalPage / 4096, cacheable);
      var entry := SetCacheBits(SetFrame(secondLevelTable[i], physicalPage / 4096), cacheable);
      assert Decode(entry) == Mapping(physicalPage / 4096, cacheable);
      secondLevelTable[i] := entry;
    }
  }
}
