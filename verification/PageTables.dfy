/** What a page table means: for every virtual page the physical frame it maps to and whether it is
    cacheable.  Both hardware tables are proved to be representations of such a flat table. */
module PageTables {

  const PAGE_SIZE: nat := 4096
  const PAGES: nat := 0x10_0000           // pages below 4 GB
  const ADDRESS_LIMIT: nat := 0x1_0000_0000

  datatype Mapping = Mapping(frame: nat, cacheable: bool)

  ghost predicate Identity(flat: seq<Mapping>, cacheable: bool)
  {
    |flat| == PAGES && forall page :: 0 <= page < PAGES ==> flat[page] == Mapping(page, cacheable)
  }

  /** What mapping one page does to a table: the same for both hardware tables and for the page moves. */
  function Remap(flat: seq<Mapping>, page: nat, frame: nat, cacheable: bool): (r: seq<Mapping>)
    requires page < |flat|
    ensures |r| == |flat| && r[page].frame == frame && (r[page].cacheable <==> cacheable)
    ensures forall p :: 0 <= p < |flat| && p != page ==> r[p] == flat[p]
  {
    flat[page := Mapping(frame, cacheable)]
  }
}
