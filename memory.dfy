/**
 * The architecture-independent description of the kernel's virtual memory:
 * memory attributes, translation rules, region descriptors and the layout
 * whose lookup resolves a virtual address to a physical address and the
 * attributes it is mapped with.
 *
 * Addresses are `usize` values in the source and unbounded naturals here.
 */
module Memory {

  datatype Result<+T, +E> = Ok(value: T) | Err(error: E)

  /** Errors of MemoryManagementUnit::enable. */
  datatype EnableError =
    | AlreadyEnabled
    | UnsupportedGranule
    | Other(reason: string)

  /** How a region's virtual addresses become physical addresses. */
  datatype Translation =
    | Identity
    | Offset(base: nat)

  datatype MemoryType = Normal | Device

  datatype MemoryAccess = ReadOnly | ReadWrite

  datatype MemoryAttributes = MemoryAttributes(
    memoryType: MemoryType,
    access: MemoryAccess,
    executable: bool
  )

  /** MemoryAttributes::default: cacheable DRAM, read-write, never executable. */
  function DefaultAttributes(): (a: MemoryAttributes)
    ensures a.memoryType == Normal && a.access == ReadWrite && !a.executable
  {
    MemoryAttributes(Normal, ReadWrite, false)
  }

  /**
   * A named region. The source computes the inclusive range with a closure
   * because the kernel-code bounds are linker symbols; here the bounds are the
   * values that closure returns.
   */
  datatype TranslationDescriptor = TranslationDescriptor(
    name: string,
    start: nat,
    endInclusive: nat,
    translation: Translation,
    attributes: MemoryAttributes
  ) {
    /** RangeInclusive::contains */
    predicate Contains(va: nat)
    {
      start <= va <= endInclusive
    }
  }

  /** The physical address a region gives to one of its virtual addresses. */
  function Translate(region: TranslationDescriptor, va: nat): (pa: nat)
    requires region.Contains(va)
    ensures pa >= va - region.start
    ensures pa - (va - region.start) == (if region.translation.Identity? then region.start else region.translation.base)
  {
    match region.translation
    case Identity => va
    case Offset(base) => base + (va - region.start)
  }

  /**
   * A region translates its range rigidly: the distance of a virtual address
   * from the start of the region is the distance of its physical address from
   * the physical image of the start, and the start itself goes to `va` (Identity)
   * or to the offset base.
   */
  lemma TranslateIsRigid(region: TranslationDescriptor, va: nat)
    requires region.Contains(va)
    ensures region.Contains(region.start)
    ensures Translate(region, va) == Translate(region, region.start) + (va - region.start)
    ensures region.translation.Identity? ==> Translate(region, region.start) == region.start
    ensures region.translation.Offset? ==> Translate(region, region.start) == region.translation.base
  {
  }

  const OUT_OF_RANGE: string := "Address out of range"

  datatype KernelVirtualMemoryLayout = KernelVirtualMemoryLayout(
    maxVirtualAddress: nat,
    inner: seq<TranslationDescriptor>
  )

  /**
   * The index of the first region, in declaration order, that contains `va`,
   * or |regions| when none does.
   */
  function FirstMatch(regions: seq<TranslationDescriptor>, va: nat): (k: nat)
    ensures k <= |regions|
    ensures k < |regions| ==> regions[k].Contains(va)
    ensures forall i :: 0 <= i < k ==> !regions[i].Contains(va)
  {
    if regions == [] then 0
    else if regions[0].Contains(va) then 0
    else 1 + FirstMatch(regions[1..], va)
  }

  /**
   * KernelVirtualMemoryLayout::virt_addr_properties: rejects addresses above
   * the maximum, then takes the first region that contains the address, and
   * otherwise falls back to an identity mapping with the default attributes.
   * A function of the layout and the address: the lookup changes nothing.
   */
  function VirtAddrProperties(layout: KernelVirtualMemoryLayout, va: nat): (r: Result<(nat, MemoryAttributes), string>)
    ensures r.Err? <==> va > layout.maxVirtualAddress
    ensures r.Err? ==> r.error == OUT_OF_RANGE
  {
    if va > layout.maxVirtualAddress then
      Err(OUT_OF_RANGE)
    else
      var k := FirstMatch(layout.inner, va);
      if k < |layout.inner| then
        Ok((Translate(layout.inner[k], va), layout.inner[k].attributes))
      else
        Ok((va, DefaultAttributes()))
  }

  /**
   * First match wins: when region k is the first in declaration order to
   * contain an in-range address, the result is region k's translation and
   * attributes, whatever later regions say.
   */
  lemma FirstMatchWins(layout: KernelVirtualMemoryLayout, va: nat, k: nat)
    requires va <= layout.maxVirtualAddress
    requires k < |layout.inner| && layout.inner[k].Contains(va)
    requires forall i :: 0 <= i < k ==> !layout.inner[i].Contains(va)
    ensures VirtAddrProperties(layout, va) == Ok((Translate(layout.inner[k], va), layout.inner[k].attributes))
  {
  }

  /**
   * The converse: every successful lookup comes from the first containing
   * region or, when there is none, from the identity default.
   */
  lemma VirtAddrPropertiesCases(layout: KernelVirtualMemoryLayout, va: nat)
    requires va <= layout.maxVirtualAddress
    ensures var r := VirtAddrProperties(layout, va);
      r.Ok? &&
      ((exists k :: 0 <= k < |layout.inner| && layout.inner[k].Contains(va) &&
          (forall i :: 0 <= i < k ==> !layout.inner[i].Contains(va)) &&
          r.value == (Translate(layout.inner[k], va), layout.inner[k].attributes))
       || ((forall i :: 0 <= i < |layout.inner| ==> !layout.inner[i].Contains(va)) &&
          r.value == (va, DefaultAttributes())))
  {
    var k := FirstMatch(layout.inner, va);
    if k < |layout.inner| {
      FirstMatchWins(layout, va, k);
    }
  }

  /** An in-range address that no region contains is identity-mapped with the default attributes. */
  lemma DefaultMapping(layout: KernelVirtualMemoryLayout, va: nat)
    requires va <= layout.maxVirtualAddress
    requires forall i :: 0 <= i < |layout.inner| ==> !layout.inner[i].Contains(va)
    ensures VirtAddrProperties(layout, va) == Ok((va, DefaultAttributes()))
  {
  }
}
