/**
 * The AArch64 system registers that the MMU enable sequence programs,
 * modelled as plain values instead of hardware accesses: MAIR_EL1 (memory
 * attribute indirection), TCR_EL1 (translation control), SCTLR_EL1 (system
 * control), and the events the enable sequence issues, in program order.
 */
module Registers {
  import opened Geometry
  import opened Memory

  /** mair::DEVICE, the MAIR_EL1 slot that page descriptors select for Device memory. */
  const MAIR_DEVICE: nat := 0
  /** mair::NORMAL, the MAIR_EL1 slot that page descriptors select for Normal memory. */
  const MAIR_NORMAL: nat := 1

  /** MAIR_EL1 attribute encoding Device-nGnRE: non-gathering, non-reordering, early write acknowledgement. */
  const ATTR_DEVICE_NGNRE: nat := 0x04
  /**
   * MAIR_EL1 attribute encoding for Normal memory, write-back non-transient,
   * read- and write-allocate, for both the outer (bits 7:4) and the inner
   * (bits 3:0) cache domain.
   */
  const ATTR_NORMAL_WB_RWALLOC: nat := 0xFF

  /** The 8-bit attribute in slot `index` (0..7) of a MAIR_EL1 value. */
  function MairAttr(mair: nat, index: nat): nat
    requires index < 8
  {
    mair / Pow2(8 * index) % 256
  }

  /**
   * set_up_mair: the value written to MAIR_EL1, slot 1 Normal write-back and
   * slot 0 Device; every other slot is zero.
   */
  function MairValue(): (v: nat)
    ensures MairAttr(v, MAIR_DEVICE) == ATTR_DEVICE_NGNRE
    ensures MairAttr(v, MAIR_NORMAL) == ATTR_NORMAL_WB_RWALLOC
    ensures v < Pow2(16)
  {
    assert Pow2(8) == 256;
    assert Pow2(16) == 0x10000 by { Pow2Add(8, 8); }
    ATTR_NORMAL_WB_RWALLOC * 0x100 + ATTR_DEVICE_NGNRE
  }

  /** The MAIR_EL1 slot the page-descriptor encoding selects for a memory type. */
  function MairIndex(t: MemoryType): (index: nat)
    ensures index < 8
  {
    match t
    case Normal => MAIR_NORMAL
    case Device => MAIR_DEVICE
  }

  /**
   * The indices agree with the register contents: the slot chosen for Normal
   * memory holds the Normal write-back encoding and the slot chosen for
   * Device memory holds Device-nGnRE.
   */
  lemma MairSlotsAgree(t: MemoryType)
    ensures MairAttr(MairValue(), MairIndex(t)) ==
      (if t == Normal then ATTR_NORMAL_WB_RWALLOC else ATTR_DEVICE_NGNRE)
  {
  }

  /** TCR_EL1.TG0 values. */
  datatype Granule0 = Granule4KiB | Granule64KiB | Granule16KiB

  /** Shareability of the table walk (TCR_EL1.SH0). */
  datatype Shareability = NonShareable | OuterShareable | InnerShareable

  /** Cacheability of the table walk (TCR_EL1.IRGN0 / ORGN0). */
  datatype Cacheability = NonCacheable | WriteBackReadWriteAllocate | WriteThrough | WriteBackNoWriteAllocate

  /**
   * The TCR_EL1 fields the kernel writes. `write` replaces the whole register;
   * the fields not listed here (T1SZ, TG1 and the rest) are written as zero.
   */
  datatype Tcr = Tcr(
    t0sz: nat,
    topByteIgnored0: bool,         // TBI0
    physicalAddressBits: nat,      // IPS
    tg0: Granule0,
    sh0: Shareability,
    orgn0: Cacheability,
    irgn0: Cacheability,
    ttbr0WalksEnabled: bool,       // EPD0 == 0
    asidFromTtbr1: bool,           // A1
    ttbr1WalksEnabled: bool        // EPD1 == 0
  )

  /**
   * configure_translation_control: 64 KiB granule, inner-shareable write-back
   * walks through TTBR0, 40-bit physical addresses, the top byte used for
   * address matching, TTBR1 walks disabled, and T0SZ = 64 - address-space shift.
   */
  function TcrValue(asSize: nat): (tcr: Tcr)
    requires ValidAddressSpace(asSize)
    ensures tcr.t0sz <= 64 && Pow2(64 - tcr.t0sz) == asSize
    ensures tcr.tg0 == Granule64KiB && tcr.ttbr0WalksEnabled && !tcr.ttbr1WalksEnabled
  {
    Tcr(
      t0sz := T0sz(asSize),
      topByteIgnored0 := false,
      physicalAddressBits := 40,
      tg0 := Granule64KiB,
      sh0 := InnerShareable,
      orgn0 := WriteBackReadWriteAllocate,
      irgn0 := WriteBackReadWriteAllocate,
      ttbr0WalksEnabled := true,
      asidFromTtbr1 := false,
      ttbr1WalksEnabled := false)
  }

  /** SCTLR_EL1: M (translation enabled), C (data cacheable), I (instruction cacheable) and the other bits. */
  datatype Sctlr = Sctlr(m: bool, c: bool, i: bool, otherBits: nat)

  /** What the enable sequence does to the hardware, in program order. */
  datatype Event =
    | WriteMair(value: nat)
    | PopulateTables
    | WriteTtbr0(baseAddress: nat)
    | WriteTcr(tcr: Tcr)
    | Isb
    | ModifySctlr(m: bool, c: bool, i: bool)
}
