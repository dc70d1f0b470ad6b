/**
 * The Raspberry Pi memory map: MMIO base addresses for the Raspberry Pi 3 and
 * 4, the kernel's three-region virtual memory layout over a 4 GiB address
 * space, and what that layout resolves each page of the space to.
 *
 * The kernel-code bounds are linker symbols, so they are parameters here.
 */
module Board {
  import opened Geometry
  import opened Memory
  import opened Registers
  import opened TranslationTable
  import opened Mmu

  datatype Raspi = Raspi3 | Raspi4

  const GPIO_OFFSET: nat := 0x0020_0000
  const UART_OFFSET: nat := 0x0020_1000
  const END_INCLUSIVE: nat := 0xFFFF_FFFF

  /**
   * mmio::START: 64 KiB aligned, with the page START + 0x20_0000 (the target
   * of the remapped window) inside the address space.
   */
  function MmioStart(board: Raspi): (a: nat)
    ensures a % 0x1_0000 == 0
    ensures a + 0x20_0000 + 0x1_0000 <= END_INCLUSIVE + 1
  {
    match board
    case Raspi3 => 0x3F00_0000
    case Raspi4 => 0xFE00_0000
  }

  /** mmio::GPIO_START: a page address in the Device MMIO range START..=END_INCLUSIVE. */
  function GpioStart(board: Raspi): (a: nat)
    ensures MmioStart(board) <= a <= END_INCLUSIVE
    ensures a % 0x1_0000 == 0
  {
    MmioStart(board) + GPIO_OFFSET
  }

  /**
   * mmio::PL011_UART_START: in the Device MMIO range and in the same 64 KiB
   * page as the GPIO registers.
   */
  function Pl011UartStart(board: Raspi): (a: nat)
    ensures MmioStart(board) <= a <= END_INCLUSIVE
    ensures a / 0x1_0000 == GpioStart(board) / 0x1_0000
  {
    MmioStart(board) + UART_OFFSET
  }

  /** The 64 KiB virtual window that is remapped onto the GPIO and UART page. */
  const REMAPPED_MMIO_START: nat := 0x1FFF_0000
  const REMAPPED_MMIO_END: nat := 0x1FFF_FFFF

  const DEVICE_RW: MemoryAttributes := MemoryAttributes(Device, ReadWrite, false)
  const CODE_RO: MemoryAttributes := MemoryAttributes(Normal, ReadOnly, false)

  function RemappedMmio(board: Raspi): TranslationDescriptor
  {
    TranslationDescriptor("Remapped Device MMIO", REMAPPED_MMIO_START, REMAPPED_MMIO_END,
      Offset(MmioStart(board) + 0x20_0000), DEVICE_RW)
  }

  function DeviceMmio(board: Raspi): TranslationDescriptor
  {
    TranslationDescriptor("Device MMIO", MmioStart(board), END_INCLUSIVE, Identity, DEVICE_RW)
  }

  /**
   * LAYOUT: the kernel code, the remapped MMIO window and the Device MMIO
   * range, in that declaration order, over 0..=END_INCLUSIVE. The code range
   * is codeStart..=codeEnd; in the source its closure returns
   * code_start()..=code_end_exclusive(), so codeEnd is code_end_exclusive().
   * The lemmas below hold for every codeEnd.
   */
  function Layout(board: Raspi, codeStart: nat, codeEnd: nat): (l: KernelVirtualMemoryLayout)
    ensures |l.inner| == 3 && l.inner[0].start == codeStart && l.inner[0].endInclusive == codeEnd
    ensures l.inner[1].endInclusive < l.inner[2].start
    ensures l.inner[2].endInclusive == l.maxVirtualAddress == END_INCLUSIVE
  {
    KernelVirtualMemoryLayout(END_INCLUSIVE, [
      TranslationDescriptor("Kernel code and RO data", codeStart, codeEnd, Identity, CODE_RO),
      RemappedMmio(board),
      DeviceMmio(board)
    ])
  }

  /**
   * LAYOUT with the kernel-code range ending at the last code address,
   * code_start..=code_end_exclusive - 1.
   */
  function CorrectedLayout(board: Raspi, codeStart: nat, codeEndExclusive: nat): (l: KernelVirtualMemoryLayout)
    requires codeStart < codeEndExclusive
    ensures |l.inner| == 3 && l.inner[0].Contains(codeEndExclusive - 1) && !l.inner[0].Contains(codeEndExclusive)
    ensures l.inner[1..] == Layout(board, codeStart, codeEndExclusive).inner[1..]
  {
    Layout(board, codeStart, codeEndExclusive - 1)
  }

  /** KernelAddressSpace: END_INCLUSIVE + 1 bytes. */
  const KERNEL_ADDRESS_SPACE_SIZE: nat := END_INCLUSIVE + 1

  /**
   * The kernel address space is 2^32 bytes: a valid address space with shift
   * 32, hence T0SZ = 32 and eight level-2 tables.
   */
  lemma KernelAddressSpaceGeometry()
    ensures ValidAddressSpace(KERNEL_ADDRESS_SPACE_SIZE)
    ensures AddressSpaceShift(KERNEL_ADDRESS_SPACE_SIZE) == 32
    ensures T0sz(KERNEL_ADDRESS_SPACE_SIZE) == 32
    ensures NumLvl2Tables(KERNEL_ADDRESS_SPACE_SIZE) == 8
  {
    Pow2Constants();
    Pow2Add(16, 16);
    assert Pow2(32) == KERNEL_ADDRESS_SPACE_SIZE;
    PowerOfTwoOfShift(32);
    DivModUnique(KERNEL_ADDRESS_SPACE_SIZE, GRANULE_512MIB_SIZE, 8, 0);
    assert ValidAddressSpace(KERNEL_ADDRESS_SPACE_SIZE);
  }

  /** The kernel-code range, both ends included, is identity-mapped read-only, never-executable Normal memory. */
  lemma KernelCodeMapping(board: Raspi, codeStart: nat, codeEnd: nat, va: nat)
    requires codeStart <= va <= codeEnd && va <= END_INCLUSIVE
    ensures VirtAddrProperties(Layout(board, codeStart, codeEnd), va) == Ok((va, CODE_RO))
  {
    FirstMatchWins(Layout(board, codeStart, codeEnd), va, 0);
  }

  /**
   * Outside the kernel-code range, the 64 KiB window at 0x1FFF_0000 is Device
   * memory at START + 0x20_0000 plus the offset into the window.
   */
  lemma RemappedMmioMapping(board: Raspi, codeStart: nat, codeEnd: nat, va: nat)
    requires REMAPPED_MMIO_START <= va <= REMAPPED_MMIO_END
    requires !(codeStart <= va <= codeEnd)
    ensures VirtAddrProperties(Layout(board, codeStart, codeEnd), va) ==
      Ok((MmioStart(board) + 0x20_0000 + (va - REMAPPED_MMIO_START), DEVICE_RW))
  {
    FirstMatchWins(Layout(board, codeStart, codeEnd), va, 1);
  }

  /** Outside the kernel-code range, START..=0xFFFF_FFFF is identity-mapped Device memory. */
  lemma DeviceMmioMapping(board: Raspi, codeStart: nat, codeEnd: nat, va: nat)
    requires MmioStart(board) <= va <= END_INCLUSIVE
    requires !(codeStart <= va <= codeEnd)
    ensures VirtAddrProperties(Layout(board, codeStart, codeEnd), va) == Ok((va, DEVICE_RW))
  {
    FirstMatchWins(Layout(board, codeStart, codeEnd), va, 2);
  }

  /** Everything else below START is ordinary DRAM: identity-mapped with the default attributes. */
  lemma DramMapping(board: Raspi, codeStart: nat, codeEnd: nat, va: nat)
    requires va < MmioStart(board)
    requires !(codeStart <= va <= codeEnd)
    requires !(REMAPPED_MMIO_START <= va <= REMAPPED_MMIO_END)
    ensures VirtAddrProperties(Layout(board, codeStart, codeEnd), va) == Ok((va, DefaultAttributes()))
  {
    DefaultMapping(Layout(board, codeStart, codeEnd), va);
  }

  /**
   * When the code range ends below the remapped window, the devices the
   * drivers use sit at their physical addresses in the identity-mapped Device
   * region, and the remapped window reaches the same GPIO and UART registers
   * at 0x1FFF_0000 and 0x1FFF_1000.
   */
  lemma DeviceRegistersReachable(board: Raspi, codeStart: nat, codeEnd: nat)
    requires codeEnd < REMAPPED_MMIO_START
    ensures VirtAddrProperties(Layout(board, codeStart, codeEnd), GpioStart(board)) == Ok((GpioStart(board), DEVICE_RW))
    ensures VirtAddrProperties(Layout(board, codeStart, codeEnd), Pl011UartStart(board)) == Ok((Pl011UartStart(board), DEVICE_RW))
    ensures VirtAddrProperties(Layout(board, codeStart, codeEnd), REMAPPED_MMIO_START) == Ok((GpioStart(board), DEVICE_RW))
    ensures VirtAddrProperties(Layout(board, codeStart, codeEnd), REMAPPED_MMIO_START + 0x1000) == Ok((Pl011UartStart(board), DEVICE_RW))
  {
    DeviceMmioMapping(board, codeStart, codeEnd, GpioStart(board));
    DeviceMmioMapping(board, codeStart, codeEnd, Pl011UartStart(board));
    RemappedMmioMapping(board, codeStart, codeEnd, REMAPPED_MMIO_START);
    RemappedMmioMapping(board, codeStart, codeEnd, REMAPPED_MMIO_START + 0x1000);
  }

  /**
   * Every page that population visits lies at or below 2^32 - 2^16, within
   * the layout's maximum, so with the board layout population never fails,
   * wherever the linker puts the code.
   */
  lemma AllPagesResolve(board: Raspi, codeStart: nat, codeEnd: nat)
    ensures AllEntriesResolve(Layout(board, codeStart, codeEnd), 8)
  {
    KernelAddressSpaceGeometry();
    var layout := Layout(board, codeStart, codeEnd);
    forall i, j | 0 <= i < 8 && 0 <= j < ENTRIES_PER_TABLE
      ensures PageEntry(layout, i, j).Ok?
    {
      EntryVirtualAddressBounds(8, i, j);
    }
  }

  /**
   * Every page descriptor of the board's tables decodes to the page's own
   * resolution: the output address is held exactly (64 KiB aligned, below
   * 2^48) and the attributes come back unchanged.
   */
  lemma BoardPageEntriesRoundTrip(board: Raspi, codeStart: nat, codeEnd: nat, i: nat, j: nat)
    requires i < 8 && j < ENTRIES_PER_TABLE
    ensures var layout := Layout(board, codeStart, codeEnd);
      && VirtAddrProperties(layout, EntryVirtualAddress(i, j)).Ok?
      && PageEntry(layout, i, j).Ok?
      && DescriptorAddress(PageEntry(layout, i, j).value) == VirtAddrProperties(layout, EntryVirtualAddress(i, j)).value.0
      && DecodeAttributes(PageEntry(layout, i, j).value) == VirtAddrProperties(layout, EntryVirtualAddress(i, j)).value.1
  {
    var layout := Layout(board, codeStart, codeEnd);
    var va := EntryVirtualAddress(i, j);
    EntryVirtualAddressBounds(8, i, j);
    var k := FirstMatch(layout.inner, va);
    if k < 3 {
      FirstMatchWins(layout, va, k);
      if k == 1 {
        assert va == REMAPPED_MMIO_START;
      }
    } else {
      DefaultMapping(layout, va);
    }
    assert Representable(VirtAddrProperties(layout, va).value.0) by {
      Pow2Constants();
    }
    PageEntryRoundTrip(layout, i, j);
  }

  /**
   * With code at 0x8_0000 and code_end_exclusive at the page address
   * 0x9_0000, the source's range 0x8_0000..=0x9_0000 makes the level-3 entry
   * for the page at 0x9_0000, which holds what the linker places after the
   * code, read-only.
   */
  lemma PageAfterCodeReadOnlyAsWritten()
    ensures EntryVirtualAddress(0, 9) == 0x9_0000
    ensures PageEntry(Layout(Raspi3, 0x8_0000, 0x9_0000), 0, 9).Ok?
    ensures DecodeAttributes(PageEntry(Layout(Raspi3, 0x8_0000, 0x9_0000), 0, 9).value) == CODE_RO
  {
    KernelCodeMapping(Raspi3, 0x8_0000, 0x9_0000, 0x9_0000);
    PageEntryRoundTrip(Layout(Raspi3, 0x8_0000, 0x9_0000), 0, 9);
  }

  /**
   * With the corrected range, below the MMIO regions an address is mapped as
   * kernel code exactly when it lies in code_start..code_end_exclusive;
   * in particular code_end_exclusive itself is ordinary read-write DRAM.
   */
  lemma KernelCodeRegionExact(board: Raspi, codeStart: nat, codeEndExclusive: nat, va: nat)
    requires codeStart < codeEndExclusive <= REMAPPED_MMIO_START
    requires va < MmioStart(board) && !(REMAPPED_MMIO_START <= va <= REMAPPED_MMIO_END)
    ensures VirtAddrProperties(CorrectedLayout(board, codeStart, codeEndExclusive), va).Ok?
    ensures VirtAddrProperties(CorrectedLayout(board, codeStart, codeEndExclusive), va).value.1 == CODE_RO
      <==> codeStart <= va < codeEndExclusive
  {
    if codeStart <= va < codeEndExclusive {
      KernelCodeMapping(board, codeStart, codeEndExclusive - 1, va);
    } else {
      DramMapping(board, codeStart, codeEndExclusive - 1, va);
    }
  }

  /**
   * The corrected layout on the same input: the last code page stays
   * read-only code and the page at code_end_exclusive is read-write.
   */
  lemma PageAfterCodeReadWrite()
    ensures PageEntry(CorrectedLayout(Raspi3, 0x8_0000, 0x9_0000), 0, 8).Ok?
    ensures DecodeAttributes(PageEntry(CorrectedLayout(Raspi3, 0x8_0000, 0x9_0000), 0, 8).value) == CODE_RO
    ensures PageEntry(CorrectedLayout(Raspi3, 0x8_0000, 0x9_0000), 0, 9).Ok?
    ensures DecodeAttributes(PageEntry(CorrectedLayout(Raspi3, 0x8_0000, 0x9_0000), 0, 9).value) == DefaultAttributes()
  {
    KernelCodeRegionExact(Raspi3, 0x8_0000, 0x9_0000, 0x8_0000);
    KernelCodeRegionExact(Raspi3, 0x8_0000, 0x9_0000, 0x9_0000);
    PageEntryRoundTrip(CorrectedLayout(Raspi3, 0x8_0000, 0x9_0000), 0, 8);
    PageEntryRoundTrip(CorrectedLayout(Raspi3, 0x8_0000, 0x9_0000), 0, 9);
  }

  /**
   * A layout with a single 4 KiB Device region at address 0 over the 4 GiB
   * space: lookup happens once per 64 KiB page, at the page's first address,
   * so exactly one level-3 entry, the first, is Device memory and every other
   * entry carries the default attributes.
   */
  lemma SingleSmallDeviceRegion(i: nat, j: nat)
    requires i < 8 && j < ENTRIES_PER_TABLE
    ensures var layout := KernelVirtualMemoryLayout(END_INCLUSIVE, [TranslationDescriptor("Device", 0, 0xFFF, Identity, DEVICE_RW)]);
      && PageEntry(layout, i, j).Ok?
      && DecodeAttributes(PageEntry(layout, i, j).value) == (if i == 0 && j == 0 then DEVICE_RW else DefaultAttributes())
  {
    var layout := KernelVirtualMemoryLayout(END_INCLUSIVE, [TranslationDescriptor("Device", 0, 0xFFF, Identity, DEVICE_RW)]);
    EntryVirtualAddressBounds(8, i, j);
    var va := EntryVirtualAddress(i, j);
    if i == 0 && j == 0 {
      FirstMatchWins(layout, va, 0);
    } else {
      assert va >= GRANULE_64KIB_SIZE;
      DefaultMapping(layout, va);
    }
    PageEntryRoundTrip(layout, i, j);
  }

  /**
   * On the board, the boot-time enable can fail only through its guards:
   * with the 64 KiB granule supported and translation off it succeeds, and
   * then the address-space size field is 32.
   */
  method EnableOnBoard(mmu: Aarch64Mmu, board: Raspi, codeStart: nat, codeEnd: nat)
    returns (r: Result<(), EnableError>)
    requires mmu.Valid()
    requires mmu.layout == Layout(board, codeStart, codeEnd)
    requires mmu.addressSpaceSize == KERNEL_ADDRESS_SPACE_SIZE
    modifies mmu, mmu.tables.lvl2, mmu.tables.lvl3
    ensures !old(mmu.IsEnabled()) && mmu.granule64KiBSupported ==> r == Ok(()) && mmu.IsEnabled()
    ensures mmu.tcr.t0sz == 32 || !mmu.IsEnabled() || old(mmu.IsEnabled())
  {
    AllPagesResolve(board, codeStart, codeEnd);
    KernelAddressSpaceGeometry();
    r := mmu.Enable();
  }
}
