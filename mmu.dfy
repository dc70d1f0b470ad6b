/**
 * The AArch64 memory management unit: the one-way enable sequence over
 * MAIR_EL1, the kernel translation tables, TTBR0_EL1, TCR_EL1 and SCTLR_EL1,
 * with its two instruction synchronization barriers recorded as events.
 */
module Mmu {
  import opened Geometry
  import opened Memory
  import opened Registers
  import opened TranslationTable

  const POPULATE_FAILED: string := OUT_OF_RANGE

  /**
   * AArch64MemoryManagementUnit with the system registers it touches as
   * fields. The capability register ID_AA64MMFR0_EL1 is read-only; `trace`
   * lists the register writes, table population and barriers in program order.
   */
  class Aarch64Mmu {
    var mair: nat
    var ttbr0: nat
    var tcr: Tcr
    var sctlr: Sctlr
    /** ID_AA64MMFR0_EL1.TGran64 == Supported */
    const granule64KiBSupported: bool
    var trace: seq<Event>

    /** KERNEL_TABLES, the static translation table this unit populates. */
    const tables: FixedSizeTranslationTable
    /** The board's virtual memory layout the tables are populated from. */
    const layout: KernelVirtualMemoryLayout
    /** KernelAddressSpace::SIZE */
    const addressSpaceSize: nat

    ghost predicate Valid()
    {
      && ValidAddressSpace(addressSpaceSize)
      && tables.Valid()
      && tables.numTables == NumLvl2Tables(addressSpaceSize)
    }

    constructor (tables: FixedSizeTranslationTable, layout: KernelVirtualMemoryLayout, addressSpaceSize: nat,
                 granule64KiBSupported: bool, mair: nat, ttbr0: nat, tcr: Tcr, sctlr: Sctlr)
      requires ValidAddressSpace(addressSpaceSize)
      requires tables.Valid() && tables.numTables == NumLvl2Tables(addressSpaceSize)
      ensures Valid()
      ensures this.tables == tables && this.layout == layout && this.addressSpaceSize == addressSpaceSize
      ensures this.granule64KiBSupported == granule64KiBSupported
      ensures this.mair == mair && this.ttbr0 == ttbr0 && this.tcr == tcr && this.sctlr == sctlr
      ensures trace == []
    {
      this.tables := tables;
      this.layout := layout;
      this.addressSpaceSize := addressSpaceSize;
      this.granule64KiBSupported := granule64KiBSupported;
      this.mair := mair;
      this.ttbr0 := ttbr0;
      this.tcr := tcr;
      this.sctlr := sctlr;
      trace := [];
    }

    /** is_enabled: SCTLR_EL1.M. */
    function IsEnabled(): bool
      reads this
    {
      sctlr.m
    }

    /** The events of a successful enable, in order. */
    function EnableSequence(): seq<Event>
      reads this, tables
      requires Valid()
    {
      [ WriteMair(MairValue()),
        PopulateTables,
        WriteTtbr0(tables.BaseAddress()),
        WriteTcr(TcrValue(addressSpaceSize)),
        Isb,
        ModifySctlr(true, true, true),
        Isb ]
    }

    /**
     * enable: refuses when translation is already on or the 64 KiB granule is
     * unsupported, touching nothing; otherwise writes MAIR_EL1, populates the
     * tables and, if that fails, stops with Other(reason), translation still
     * off and only MAIR_EL1 written. On success it points TTBR0_EL1 at the
     * level-2 table, writes TCR_EL1, issues ISB, sets SCTLR_EL1.M, C and I
     * (other bits kept) and issues ISB again.
     */
    method Enable() returns (r: Result<(), EnableError>)
      requires Valid()
      modifies this, tables.lvl2, tables.lvl3
      ensures Valid()
      ensures old(IsEnabled()) ==>
        && r == Err(AlreadyEnabled)
        && mair == old(mair) && ttbr0 == old(ttbr0) && tcr == old(tcr) && sctlr == old(sctlr)
        && trace == old(trace)
        && unchanged(tables.lvl2) && unchanged(tables.lvl3)
      ensures !old(IsEnabled()) && !granule64KiBSupported ==>
        && r == Err(UnsupportedGranule)
        && mair == old(mair) && ttbr0 == old(ttbr0) && tcr == old(tcr) && sctlr == old(sctlr)
        && trace == old(trace)
        && unchanged(tables.lvl2) && unchanged(tables.lvl3)
      ensures !old(IsEnabled()) && granule64KiBSupported && !AllEntriesResolve(layout, tables.numTables) ==>
        && r == Err(Other(POPULATE_FAILED))
        && mair == MairValue()
        && ttbr0 == old(ttbr0) && tcr == old(tcr) && sctlr == old(sctlr)
        && trace == old(trace) + [WriteMair(MairValue()), PopulateTables]
        && !IsEnabled()
      ensures !old(IsEnabled()) && granule64KiBSupported && AllEntriesResolve(layout, tables.numTables) ==>
        && r == Ok(())
        && mair == MairValue()
        && tables.Populated(layout)
        && ttbr0 == tables.BaseAddress()
        && tcr == TcrValue(addressSpaceSize)
        && sctlr == old(sctlr).(m := true, c := true, i := true)
        && trace == old(trace) + EnableSequence()
        && IsEnabled()
    {
      if IsEnabled() {
        return Err(AlreadyEnabled);
      }

      if !granule64KiBSupported {
        return Err(UnsupportedGranule);
      }

      // set_up_mair
      mair := MairValue();
      trace := trace + [WriteMair(mair)];

      trace := trace + [PopulateTables];
      var populated := tables.PopulateTtEntries(layout);
      if populated.Err? {
        return Err(Other(populated.error));
      }

      ttbr0 := tables.BaseAddress();
      trace := trace + [WriteTtbr0(ttbr0)];

      // configure_translation_control
      tcr := TcrValue(addressSpaceSize);
      trace := trace + [WriteTcr(tcr)];

      trace := trace + [Isb];

      sctlr := sctlr.(m := true, c := true, i := true);
      trace := trace + [ModifySctlr(true, true, true)];

      trace := trace + [Isb];
      return Ok(());
    }
  }

  /**
   * The idempotency guard seen from the boot sequencer: after a successful
   * enable a second one is refused with AlreadyEnabled (and, by Enable's own
   * contract, changes nothing); after a failed one the second fails the same
   * way, and translation is on exactly when it was on before or the first
   * call succeeded.
   */
  method EnableTwice(mmu: Aarch64Mmu) returns (first: Result<(), EnableError>, second: Result<(), EnableError>)
    requires mmu.Valid()
    modifies mmu, mmu.tables.lvl2, mmu.tables.lvl3
    ensures first.Ok? ==> second == Err(AlreadyEnabled) && mmu.IsEnabled()
    ensures first.Err? ==> second == first
    ensures mmu.IsEnabled() <==> old(mmu.IsEnabled()) || first.Ok?
  {
    first := mmu.Enable();
    second := mmu.Enable();
  }
}
