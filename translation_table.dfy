/**
 * Stage-1 translation tables for the 64 KiB granule: the 64-bit level-2 table
 * descriptor (ARMv8-A Architecture Reference Manual, Figure D5-15) and level-3
 * page descriptor (Figure D5-17), the mapping from memory attributes to page
 * descriptor fields, and the fixed-size two-level table that is filled from a
 * virtual memory layout.
 *
 * A descriptor word is a natural below 2^64. Every field is read as
 * (word / 2^offset) % 2^width; the encoders add the field values, which is
 * the same as OR-ing them because the fields never overlap.
 */
module TranslationTable {
  import opened Geometry
  import opened Memory
  import opened Registers

  const WORD_LIMIT: nat := 0x1_0000_0000_0000_0000
  type Word64 = w: nat | w < WORD_LIMIT

  // ---------------------------------------------------------------------------
  // Descriptor fields

  /** VALID, bit 0. */
  function ValidBit(w: Word64): nat { w % 2 }
  /** TYPE, bit 1: Table (level 2) or Page (level 3) when 1. */
  function TypeBit(w: Word64): nat { w / 2 % 2 }
  /** AttrIndx, bits 4:2: the MAIR_EL1 slot. */
  function AttrIndx(w: Word64): nat { w / 0x4 % 0x8 }
  /** AP, bits 7:6: 0b00 read-write at EL1, 0b10 read-only at EL1. */
  function AccessPermissions(w: Word64): nat { w / 0x40 % 0x4 }
  /** SH, bits 9:8: 0b10 outer shareable, 0b11 inner shareable. */
  function Shareability(w: Word64): nat { w / 0x100 % 0x4 }
  /** AF, bit 10: the access flag. */
  function AccessFlag(w: Word64): nat { w / 0x400 % 2 }
  /** Bits 47:16: the next-level table address or the output address, in 64 KiB units. */
  function AddressField(w: Word64): nat { w / 0x1_0000 % 0x1_0000_0000 }
  /** PXN, bit 53: privileged execute-never. */
  function PrivilegedExecuteNever(w: Word64): nat { w / 0x20_0000_0000_0000 % 2 }
  /** UXN, bit 54: unprivileged execute-never. */
  function UnprivilegedExecuteNever(w: Word64): nat { w / 0x40_0000_0000_0000 % 2 }

  /** The physical address a descriptor's address field designates. */
  function DescriptorAddress(w: Word64): nat
  {
    AddressField(w) * 0x1_0000
  }

  const SH_OUTER_SHAREABLE: nat := 0x2
  const SH_INNER_SHAREABLE: nat := 0x3
  const AP_RW_EL1: nat := 0x0
  const AP_RO_EL1: nat := 0x2

  /** An address the 32-bit address field holds exactly: 64 KiB aligned and below 2^48. */
  predicate Representable(addr: nat)
  {
    addr % GRANULE_64KIB_SIZE == 0 && addr < MAX_ADDRESS_SPACE_SIZE
  }

  // ---------------------------------------------------------------------------
  // Table descriptors

  /**
   * TableDescriptor::from_next_level_table_address: VALID, TYPE = Table and
   * the address shifted right by 16 in bits 47:16; every other bit is zero.
   */
  function TableDescriptor(nextLevelTableAddress: nat): (w: Word64)
    ensures ValidBit(w) == 1 && TypeBit(w) == 1
    ensures AddressField(w) == nextLevelTableAddress / 0x1_0000 % 0x1_0000_0000
    ensures w % 0x1_0000 == 0x3 && w / 0x1_0000_0000_0000 == 0
  {
    (nextLevelTableAddress / 0x1_0000 % 0x1_0000_0000) * 0x1_0000 + 0x2 + 0x1
  }

  /** Table descriptors round-trip: the address field gives the table address back. */
  lemma TableDescriptorRoundTrip(addr: nat)
    requires Representable(addr)
    ensures DescriptorAddress(TableDescriptor(addr)) == addr
  {
  }

  // ---------------------------------------------------------------------------
  // Page descriptors

  /** SH for a memory type: inner shareable for Normal memory, outer shareable for Device memory. */
  function ShareabilityFor(t: MemoryType): nat
  {
    match t
    case Normal => SH_INNER_SHAREABLE
    case Device => SH_OUTER_SHAREABLE
  }

  /** AP for an access permission: kernel-only in both cases. */
  function AccessPermissionsFor(a: MemoryAccess): nat
  {
    match a
    case ReadOnly => AP_RO_EL1
    case ReadWrite => AP_RW_EL1
  }

  /**
   * From<&MemoryAttributes>: SH and AttrIndx from the memory type, AP from the
   * access permission, PXN unless executable, and UXN always, as user space
   * does not exist yet.
   */
  function AttributeFields(attributes: MemoryAttributes): (f: nat)
    ensures f % 0x4 == 0 && f % 0x1_0000 < 0x400
    ensures f / 0x1_0000 % 0x1_0000_0000 == 0
    ensures f < 0x80_0000_0000_0000
  {
    ShareabilityFor(attributes.memoryType) * 0x100
      + MairIndex(attributes.memoryType) * 0x4
      + AccessPermissionsFor(attributes.access) * 0x40
      + (if attributes.executable then 0 else 1) * 0x20_0000_0000_0000
      + 0x40_0000_0000_0000
  }

  /**
   * PageDescriptor::from_output_address: the output address shifted right by
   * 16 in bits 47:16, AF, TYPE = Page and VALID set, plus the attribute
   * fields. Bits 63:55 stay clear.
   */
  function PageDescriptor(outputAddress: nat, attributes: MemoryAttributes): (w: Word64)
    ensures w < 0x80_0000_0000_0000
  {
    (outputAddress / 0x1_0000 % 0x1_0000_0000) * 0x1_0000 + 0x400 + 0x2 + 0x1 + AttributeFields(attributes)
  }

  /**
   * Reading a field: in a word made of a high part, a field value v below q
   * at place value p, and a low part below p, the field reads back as v.
   */
  lemma FieldReadsBack(hi: nat, v: nat, lo: nat, p: nat, q: nat)
    requires p > 0 && q > 0 && v < q && lo < p
    ensures (hi * (p * q) + v * p + lo) / p % q == v
  {
    var x := hi * (p * q) + v * p + lo;
    assert x == (hi * q + v) * p + lo;
    DivModUnique(x, p, hi * q + v, lo);
    DivModUnique(hi * q + v, q, hi, v);
  }

  /** The fields of a page-descriptor word built from field values a, sh, idx, ap, pxn. */
  lemma {:induction false} PageWordFields(w: Word64, a: nat, sh: nat, idx: nat, ap: nat, pxn: nat)
    requires a < 0x1_0000_0000 && sh < 4 && idx < 8 && ap < 4 && pxn < 2
    requires w == a * 0x1_0000 + 0x400 + 0x2 + 0x1 + sh * 0x100 + idx * 0x4 + ap * 0x40
                  + pxn * 0x20_0000_0000_0000 + 0x40_0000_0000_0000
    ensures ValidBit(w) == 1 && TypeBit(w) == 1 && AccessFlag(w) == 1
    ensures AttrIndx(w) == idx && AccessPermissions(w) == ap && Shareability(w) == sh
    ensures AddressField(w) == a
    ensures PrivilegedExecuteNever(w) == pxn && UnprivilegedExecuteNever(w) == 1
    ensures w % 0x1_0000 == 0x400 + sh * 0x100 + ap * 0x40 + idx * 0x4 + 0x3
    ensures w / 0x1_0000_0000_0000 == pxn * 0x20 + 0x40
  {
    var low := 0x400 + sh * 0x100 + ap * 0x40 + idx * 0x4 + 0x3;
    DivModUnique(w, 0x1_0000, a + pxn * 0x20_0000_0000 + 0x40_0000_0000, low);
    DivModUnique(w, 0x1_0000_0000_0000, pxn * 0x20 + 0x40, a * 0x1_0000 + low);
    var rest := idx * 0x4 + ap * 0x40 + sh * 0x100;
    FieldReadsBack(a * 0x8000 + 0x200 + 1 + sh * 0x80 + idx * 2 + ap * 0x20 + pxn * 0x10_0000_0000_0000 + 0x20_0000_0000_0000, 1, 0, 1, 2);
    FieldReadsBack(a * 0x4000 + 0x100 + sh * 0x40 + idx + ap * 0x10 + pxn * 0x8_0000_0000_0000 + 0x10_0000_0000_0000, 1, 1, 2, 2);
    FieldReadsBack(a * 0x800 + 0x20 + sh * 8 + ap * 2 + pxn * 0x1_0000_0000_0000 + 0x2_0000_0000_0000, idx, 3, 4, 8);
    FieldReadsBack(a * 0x100 + 4 + sh + pxn * 0x2000_0000_0000 + 0x4000_0000_0000, ap, 3 + idx * 4, 0x40, 4);
    FieldReadsBack(a * 0x40 + 1 + pxn * 0x800_0000_0000 + 0x1000_0000_0000, sh, 3 + idx * 4 + ap * 0x40, 0x100, 4);
    FieldReadsBack(a * 0x20 + pxn * 0x400_0000_0000 + 0x800_0000_0000, 1, 3 + rest, 0x400, 2);
    FieldReadsBack(pxn * 0x20 + 0x40, a, 0x403 + rest, 0x1_0000, 0x1_0000_0000);
    FieldReadsBack(1, pxn, a * 0x1_0000 + 0x403 + rest, 0x20_0000_0000_0000, 2);
    FieldReadsBack(0, 1, a * 0x1_0000 + 0x403 + rest + pxn * 0x20_0000_0000_0000, 0x40_0000_0000_0000, 2);
  }

  /**
   * Every page descriptor is a valid page entry with the access flag set, its
   * output address in bits 47:16, and exactly the shareability, MAIR slot,
   * access permission and execute-never bits its attributes call for:
   * Normal is inner shareable with AttrIndx = mair::NORMAL, Device outer
   * shareable with AttrIndx = mair::DEVICE, ReadOnly is AP = 0b10 and
   * ReadWrite AP = 0b00, PXN = !executable and UXN = 1. Every other bit is
   * zero: bits 15:0 hold only VALID, TYPE, AttrIndx, AP, SH and AF, and bits
   * 63:48 only PXN and UXN.
   */
  lemma PageDescriptorFields(outputAddress: nat, attributes: MemoryAttributes)
    ensures var w := PageDescriptor(outputAddress, attributes);
      && ValidBit(w) == 1 && TypeBit(w) == 1 && AccessFlag(w) == 1
      && AddressField(w) == outputAddress / 0x1_0000 % 0x1_0000_0000
      && Shareability(w) == (if attributes.memoryType == Normal then SH_INNER_SHAREABLE else SH_OUTER_SHAREABLE)
      && AttrIndx(w) == (if attributes.memoryType == Normal then MAIR_NORMAL else MAIR_DEVICE)
      && AccessPermissions(w) == (if attributes.access == ReadOnly then AP_RO_EL1 else AP_RW_EL1)
      && PrivilegedExecuteNever(w) == (if attributes.executable then 0 else 1)
      && UnprivilegedExecuteNever(w) == 1
      && w % 0x1_0000 == 0x400 + Shareability(w) * 0x100 + AccessPermissions(w) * 0x40 + AttrIndx(w) * 0x4 + 0x3
      && w / 0x1_0000_0000_0000 == PrivilegedExecuteNever(w) * 0x20 + 0x40
  {
    PageWordFields(PageDescriptor(outputAddress, attributes),
      outputAddress / 0x1_0000 % 0x1_0000_0000,
      ShareabilityFor(attributes.memoryType),
      MairIndex(attributes.memoryType),
      AccessPermissionsFor(attributes.access),
      if attributes.executable then 0 else 1);
  }

  /** The attributes a page descriptor maps its page with, read back from its fields. */
  function DecodeAttributes(w: Word64): MemoryAttributes
  {
    MemoryAttributes(
      if AttrIndx(w) == MAIR_NORMAL then Normal else Device,
      if AccessPermissions(w) == AP_RO_EL1 then ReadOnly else ReadWrite,
      PrivilegedExecuteNever(w) == 0)
  }

  /**
   * Page descriptors round-trip: decoding recovers the output address (when it
   * is representable) and the attributes.
   */
  lemma PageDescriptorRoundTrip(outputAddress: nat, attributes: MemoryAttributes)
    ensures DecodeAttributes(PageDescriptor(outputAddress, attributes)) == attributes
    ensures Representable(outputAddress) ==> DescriptorAddress(PageDescriptor(outputAddress, attributes)) == outputAddress
  {
    PageDescriptorFields(outputAddress, attributes);
  }

  /**
   * The MAIR_EL1 slot a page descriptor selects holds the encoding for the
   * memory type it was built for.
   */
  lemma PageDescriptorSelectsMatchingMair(outputAddress: nat, attributes: MemoryAttributes)
    ensures AttrIndx(PageDescriptor(outputAddress, attributes)) < 8
    ensures MairAttr(MairValue(), AttrIndx(PageDescriptor(outputAddress, attributes))) ==
      (if attributes.memoryType == Normal then ATTR_NORMAL_WB_RWALLOC else ATTR_DEVICE_NGNRE)
  {
    PageDescriptorFields(outputAddress, attributes);
    MairSlotsAgree(attributes.memoryType);
  }

  // ---------------------------------------------------------------------------
  // The fixed-size translation table

  /** The virtual address of level-3 entry j in table i: (i << 29) + (j << 16). */
  function EntryVirtualAddress(i: nat, j: nat): nat
  {
    i * GRANULE_512MIB_SIZE + j * GRANULE_64KIB_SIZE
  }

  /**
   * The addresses population visits are the 64 KiB pages of the address
   * space, in increasing order, the last one 64 KiB below its end.
   */
  lemma EntryVirtualAddressBounds(numTables: nat, i: nat, j: nat)
    requires i < numTables && j < ENTRIES_PER_TABLE
    ensures EntryVirtualAddress(i, j) % GRANULE_64KIB_SIZE == 0
    ensures EntryVirtualAddress(i, j) <= numTables * GRANULE_512MIB_SIZE - GRANULE_64KIB_SIZE
    ensures j + 1 < ENTRIES_PER_TABLE ==> EntryVirtualAddress(i, j) < EntryVirtualAddress(i, j + 1)
    ensures j + 1 == ENTRIES_PER_TABLE ==> EntryVirtualAddress(i, j) < EntryVirtualAddress(i + 1, 0)
  {
    assert i * GRANULE_512MIB_SIZE <= (numTables - 1) * GRANULE_512MIB_SIZE;
  }

  /**
   * What population stores at lvl3[i][j]: the page descriptor of the
   * resolution of the entry's virtual address, or the resolution error.
   */
  function PageEntry(layout: KernelVirtualMemoryLayout, i: nat, j: nat): Result<Word64, string>
  {
    match VirtAddrProperties(layout, EntryVirtualAddress(i, j))
    case Ok((outputAddress, attributes)) => Ok(PageDescriptor(outputAddress, attributes))
    case Err(e) => Err(e)
  }

  /**
   * A populated entry decodes to exactly what the layout resolves its virtual
   * address to: the output address (when representable) and the attributes.
   */
  lemma PageEntryRoundTrip(layout: KernelVirtualMemoryLayout, i: nat, j: nat)
    requires VirtAddrProperties(layout, EntryVirtualAddress(i, j)).Ok?
    ensures var (outputAddress, attributes) := VirtAddrProperties(layout, EntryVirtualAddress(i, j)).value;
      && PageEntry(layout, i, j).Ok?
      && DecodeAttributes(PageEntry(layout, i, j).value) == attributes
      && (Representable(outputAddress) ==> DescriptorAddress(PageEntry(layout, i, j).value) == outputAddress)
  {
    var (outputAddress, attributes) := VirtAddrProperties(layout, EntryVirtualAddress(i, j)).value;
    PageDescriptorRoundTrip(outputAddress, attributes);
  }

  /** Every level-3 entry of the first numTables tables resolves. */
  ghost predicate AllEntriesResolve(layout: KernelVirtualMemoryLayout, numTables: nat)
  {
    forall i, j :: 0 <= i < numTables && 0 <= j < ENTRIES_PER_TABLE ==> PageEntry(layout, i, j).Ok?
  }

  /** Row-major order of level-3 entries: (i, j) is visited before (ei, ej). */
  predicate Before(i: nat, j: nat, ei: nat, ej: nat)
  {
    i < ei || (i == ei && j < ej)
  }

  /**
   * FixedSizeTranslationTable: NUM_TABLES level-3 tables of 8192 page
   * descriptors followed by one level-2 table of NUM_TABLES table descriptors,
   * laid out in that order (repr(C)) from a 64 KiB aligned physical address
   * (repr(align(65536))). Each level-3 table is 8192 * 8 bytes = 64 KiB.
   */
  class FixedSizeTranslationTable {
    const numTables: nat
    /** The physical address of the whole aggregate, supplied by the linker. */
    const physicalStart: nat
    const lvl3: array2<Word64>
    const lvl2: array<Word64>

    ghost predicate Valid()
    {
      && numTables > 0
      && lvl3.Length0 == numTables && lvl3.Length1 == ENTRIES_PER_TABLE
      && lvl2.Length == numTables
      && physicalStart % GRANULE_64KIB_SIZE == 0
    }

    /** The physical start address of level-3 table i. */
    function Lvl3Address(i: nat): nat
    {
      physicalStart + i * GRANULE_64KIB_SIZE
    }

    /**
     * base_address: the physical address of the level-2 table, which follows
     * the level-3 tables. It is 64 KiB aligned and lies past every level-3
     * table.
     */
    function BaseAddress(): (a: nat)
      requires Valid()
      ensures a % GRANULE_64KIB_SIZE == 0
      ensures forall i :: 0 <= i < numTables ==> Lvl3Address(i) + GRANULE_64KIB_SIZE <= a
    {
      physicalStart + numTables * GRANULE_64KIB_SIZE
    }

    /** FixedSizeTranslationTable::new: every descriptor zero, that is, invalid. */
    constructor (numTables: nat, physicalStart: nat)
      requires numTables > 0
      requires physicalStart % GRANULE_64KIB_SIZE == 0
      ensures Valid()
      ensures this.numTables == numTables && this.physicalStart == physicalStart
      ensures fresh(lvl3) && fresh(lvl2)
      ensures forall i, j :: 0 <= i < numTables && 0 <= j < ENTRIES_PER_TABLE ==> lvl3[i, j] == 0
      ensures forall i :: 0 <= i < numTables ==> lvl2[i] == 0
    {
      this.numTables := numTables;
      this.physicalStart := physicalStart;
      lvl3 := new Word64[numTables, ENTRIES_PER_TABLE]((i, j) => 0);
      lvl2 := new Word64[numTables](i => 0);
    }

    /**
     * Every level-2 entry points at its level-3 table and every level-3 entry
     * holds the page descriptor of its resolved virtual address.
     */
    ghost predicate Populated(layout: KernelVirtualMemoryLayout)
      requires Valid()
      reads lvl2, lvl3
    {
      && (forall i :: 0 <= i < numTables ==> lvl2[i] == TableDescriptor(Lvl3Address(i)))
      && (forall i, j :: 0 <= i < numTables && 0 <= j < ENTRIES_PER_TABLE ==> PageEntry(layout, i, j) == Ok(lvl3[i, j]))
    }

    /**
     * populate_tt_entries: for each level-2 index i, point lvl2[i] at level-3
     * table i, then fill lvl3[i][j] from the resolution of
     * (i << 29) + (j << 16). On the first resolution error it returns that
     * error at once: the entries already visited keep their new values and
     * the rest are untouched.
     */
    method PopulateTtEntries(layout: KernelVirtualMemoryLayout) returns (r: Result<(), string>)
      requires Valid()
      modifies lvl2, lvl3
      ensures r.Ok? <==> AllEntriesResolve(layout, numTables)
      ensures r.Ok? ==> Populated(layout)
      ensures r.Err? ==> exists ei, ej ::
        && 0 <= ei < numTables && 0 <= ej < ENTRIES_PER_TABLE
        && PageEntry(layout, ei, ej) == Err(r.error)
        && (forall i, j :: 0 <= i < numTables && 0 <= j < ENTRIES_PER_TABLE && Before(i, j, ei, ej) ==>
              PageEntry(layout, i, j) == Ok(lvl3[i, j]))
        && (forall i, j :: 0 <= i < numTables && 0 <= j < ENTRIES_PER_TABLE && !Before(i, j, ei, ej) ==>
              lvl3[i, j] == old(lvl3[i, j]))
        && (forall i :: 0 <= i <= ei ==> lvl2[i] == TableDescriptor(Lvl3Address(i)))
        && (forall i :: ei < i < numTables ==> lvl2[i] == old(lvl2[i]))
    {
      var i := 0;
      while i < numTables
        invariant 0 <= i <= numTables
        invariant forall a :: 0 <= a < i ==> lvl2[a] == TableDescriptor(Lvl3Address(a))
        invariant forall a :: i <= a < numTables ==> lvl2[a] == old(lvl2[a])
        invariant forall a, b :: 0 <= a < numTables && 0 <= b < ENTRIES_PER_TABLE && Before(a, b, i, 0) ==>
          PageEntry(layout, a, b) == Ok(lvl3[a, b])
        invariant forall a, b :: 0 <= a < numTables && 0 <= b < ENTRIES_PER_TABLE && !Before(a, b, i, 0) ==>
          lvl3[a, b] == old(lvl3[a, b])
      {
        lvl2[i] := TableDescriptor(Lvl3Address(i));
        var j := 0;
        while j < ENTRIES_PER_TABLE
          invariant 0 <= j <= ENTRIES_PER_TABLE
          invariant forall a :: 0 <= a <= i ==> lvl2[a] == TableDescriptor(Lvl3Address(a))
          invariant forall a :: i < a < numTables ==> lvl2[a] == old(lvl2[a])
          invariant forall a, b :: 0 <= a < numTables && 0 <= b < ENTRIES_PER_TABLE && Before(a, b, i, j) ==>
            PageEntry(layout, a, b) == Ok(lvl3[a, b])
          invariant forall a, b :: 0 <= a < numTables && 0 <= b < ENTRIES_PER_TABLE && !Before(a, b, i, j) ==>
            lvl3[a, b] == old(lvl3[a, b])
        {
          var virtAddr := i * GRANULE_512MIB_SIZE + j * GRANULE_64KIB_SIZE;
          var resolved := VirtAddrProperties(layout, virtAddr);
          if resolved.Err? {
            assert PageEntry(layout, i, j) == Err(resolved.error);
            return Err(resolved.error);
          }
          var (outputAddress, attributes) := resolved.value;
          lvl3[i, j] := PageDescriptor(outputAddress, attributes);
          j := j + 1;
        }
        i := i + 1;
      }
      return Ok(());
    }
  }
}
