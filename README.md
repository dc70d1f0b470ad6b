# Emily OS kernel memory management and driver registry, modelled in Dafny

This project models the part of the `em-kernel` crate that sets up virtual
memory on AArch64 Raspberry Pi boards, together with the kernel's driver
registry:

- **Geometry** (`geometry.dfy`). Translation granules and the kernel address
  space are power-of-two sizes with SHIFT = log2(SIZE). The architecture also
  restricts the address space: it must be a whole number of 512 MiB level-2
  entries and at most 2^48 bytes. The source checks these conditions at
  compile time; here they are preconditions.
- **Memory** (`memory.dfy`). Memory attributes, the Identity and Offset
  translations, region descriptors, and the kernel virtual memory layout.
  Its lookup, `virt_addr_properties`, rejects addresses above the maximum,
  takes the first region that contains the address, and otherwise falls
  back to an identity mapping with the default attributes.
- **Registers** (`registers.dfy`). The values the MMU enable sequence writes
  to MAIR_EL1, TCR_EL1 and SCTLR_EL1, kept as field-level records. It also
  defines the events of the enable sequence, in program order.
- **TranslationTable** (`translation_table.dfy`). 64 KiB granule table
  descriptors and page descriptors as 64-bit words, following the
  ARMv8-A Architecture Reference Manual, Figures D5-15 and D5-17. It also
  covers how memory attributes become page-descriptor fields, and the
  fixed-size two-level table (a `class` over arrays) with the nested loop
  that fills it from a layout.
- **Mmu** (`mmu.dfy`). The one-way `enable` sequence as a method on a class
  whose fields are the system registers. A `trace` field records the writes
  and barriers in order.
- **Board** (`board_memory.dfy`). The Raspberry Pi 3 and 4 MMIO addresses,
  the three-region kernel layout over a 4 GiB address space, and what every
  page of that space resolves to.
- **Driver** (`driver.dfy`). The five-slot driver registry as a class over
  an array. It covers `install`, `for_each_descriptor`, and `initialize`.
  `initialize` runs each driver's init and then its post-init callback, and
  the first failure halts the kernel.

Descriptor words are naturals below 2^64. A field is read as
`(word / 2^offset) % 2^width`. Encoders add the field values, which is the
same as OR-ing them because the fields never overlap.

Two consequences of the code that are easy to overlook:

- TCR_EL1.TBI0 is written as `Used`
  (crates/em-kernel/src/arch/aarch64/memory/mod.rs:56). The top byte of a
  virtual address therefore takes part in address matching, and `TcrValue`
  has `topByteIgnored0 = false`.
- Population looks each 64 KiB page up at its first address only
  (crates/em-kernel/src/arch/aarch64/memory/translation_table.rs:218-224).
  A region smaller than a page marks at most one leaf entry: a 4 KiB Device
  region at 0x0 makes only the first entry Device
  (`Board.SingleSmallDeviceRegion`).

## Model

| member | source | states |
|---|---|---|
| Geometry.ShiftOfPowerOfTwo | crates/em-kernel/src/memory/mod.rs:43-44 | for a power of two, 1 << trailing_zeros(n) == n, so SHIFT is log2(SIZE) |
| Geometry.PowerOfTwoOfShift | crates/em-kernel/src/memory/mod.rs:59-60 | every 2^k is a power of two, and its trailing-zero count is k (SHIFT is exact) |
| Geometry.GranuleShift | crates/em-kernel/src/memory/mod.rs:39-49 | a granule size must be a power of two, and 2^SHIFT equals the size |
| Geometry.GranuleShifts | crates/em-kernel/src/arch/aarch64/memory/mod.rs:14-15 | the two granule aliases are valid granules with SHIFT 29 (512 MiB) and 16 (64 KiB) |
| Geometry.ArchCheckIffShiftInRange | crates/em-kernel/src/arch/aarch64/memory/mod.rs:27-34 | arch_check_address_space_size (a multiple of 512 MiB, at most 2^48 bytes) accepts a power of two 2^k exactly when 29 <= k <= 48 |
| Geometry.AddressSpaceShift | crates/em-kernel/src/memory/mod.rs:55-69 | for a valid address space, 2^SHIFT equals the size and SHIFT lies in 29..48 |
| Geometry.NumLvl2Tables | crates/em-kernel/src/arch/aarch64/memory/translation_table.rs:140 | the number of level-2 tables is positive, and that many 512 MiB entries cover the address space exactly |
| Geometry.T0sz | crates/em-kernel/src/arch/aarch64/memory/mod.rs:53 | T0SZ lies in 16..35, and 2^(64 - T0SZ) is the address-space size |
| Memory.DefaultAttributes | crates/em-kernel/src/memory/mod.rs:115-123 | the default attributes are Normal, ReadWrite and not executable |
| Memory.Translate | crates/em-kernel/src/memory/mod.rs:207-210 | the physical address minus the distance from the region start is the start itself (Identity) or the offset base (Offset) |
| Memory.TranslateIsRigid | crates/em-kernel/src/memory/mod.rs:207-210 | a region shifts its whole range rigidly: Identity maps the start to itself, Offset maps it to the base, and distances from the start are kept |
| Memory.FirstMatch | crates/em-kernel/src/memory/mod.rs:205-206 | the index returned is the first region in declaration order that contains the address, or the region count when none does |
| Memory.VirtAddrProperties | crates/em-kernel/src/memory/mod.rs:197-217 | the lookup fails exactly for addresses above the maximum, and then with "Address out of range" |
| Memory.FirstMatchWins | crates/em-kernel/src/memory/mod.rs:205-213 | when region k is the first to contain an in-range address, the result is region k's translation and attributes, whatever later regions say |
| Memory.VirtAddrPropertiesCases | crates/em-kernel/src/memory/mod.rs:201-216 | every in-range lookup succeeds and comes either from the first containing region or, when none contains the address, from the identity default |
| Memory.DefaultMapping | crates/em-kernel/src/memory/mod.rs:216 | an in-range address in no region maps to itself with the default attributes |
| Registers.MairValue | crates/em-kernel/src/arch/aarch64/memory/mod.rs:39-49 | MAIR_EL1 slot 0 (mair::DEVICE) holds Device-nGnRE (0x04) and slot 1 (mair::NORMAL) holds Normal write-back read/write-allocate (0xFF); the other slots are zero |
| Registers.MairSlotsAgree | crates/em-kernel/src/arch/aarch64/memory/mod.rs:17-20 | the slot index chosen for each memory type holds that type's encoding in MAIR_EL1 |
| Registers.TcrValue | crates/em-kernel/src/arch/aarch64/memory/mod.rs:52-67 | TCR_EL1 gets T0SZ with 2^(64 - T0SZ) = address-space size, the 64 KiB TG0, TTBR0 walks on and TTBR1 walks off |
| TranslationTable.TableDescriptor | crates/em-kernel/src/arch/aarch64/memory/translation_table.rs:94-104 | the table descriptor has VALID and TYPE = Table, the address >> 16 in bits 47:16, and every other bit zero |
| TranslationTable.TableDescriptorRoundTrip | crates/em-kernel/src/arch/aarch64/memory/translation_table.rs:94-104 | a 64 KiB aligned address below 2^48 is recovered from the table descriptor |
| TranslationTable.AttributeFields | crates/em-kernel/src/arch/aarch64/memory/translation_table.rs:148-181 | the attribute fields leave VALID, TYPE, AF, the output address (bits 47:16) and bits 63:55 clear, so adding them is OR-ing; their values are stated by PageDescriptorFields |
| TranslationTable.PageDescriptor | crates/em-kernel/src/arch/aarch64/memory/translation_table.rs:121-133 | the page descriptor fits in 55 bits: bits 63:55 stay clear |
| TranslationTable.PageDescriptorFields | crates/em-kernel/src/arch/aarch64/memory/translation_table.rs:148-181 | VALID, TYPE = Page and AF are set; the output address >> 16 is in bits 47:16; Normal is inner shareable with AttrIndx 1 and Device is outer shareable with AttrIndx 0; ReadOnly gives AP = 0b10 and ReadWrite AP = 0b00; PXN = !executable and UXN = 1; every other bit is zero |
| TranslationTable.PageDescriptorRoundTrip | crates/em-kernel/src/arch/aarch64/memory/translation_table.rs:121-133 | decoding a page descriptor gives back its attributes, and its output address when 64 KiB aligned and below 2^48 |
| TranslationTable.PageDescriptorSelectsMatchingMair | crates/em-kernel/src/arch/aarch64/memory/translation_table.rs:152-161 | the MAIR_EL1 slot a page descriptor selects holds the encoding for its memory type |
| TranslationTable.EntryVirtualAddressBounds | crates/em-kernel/src/arch/aarch64/memory/translation_table.rs:218-219 | the addresses population visits are 64 KiB aligned, strictly increasing in visiting order, and end 64 KiB below the address-space size |
| TranslationTable.PageEntryRoundTrip | crates/em-kernel/src/arch/aarch64/memory/translation_table.rs:219-224 | the entry stored for a resolvable page decodes to that page's resolved attributes, and to its output address when representable |
| TranslationTable.FixedSizeTranslationTable.constructor | crates/em-kernel/src/arch/aarch64/memory/translation_table.rs:198-206 | the table count must be positive, and every level-2 and level-3 descriptor starts at zero (invalid) |
| TranslationTable.FixedSizeTranslationTable.BaseAddress | crates/em-kernel/src/arch/aarch64/memory/translation_table.rs:232-234 | the level-2 table address is 64 KiB aligned and lies past every level-3 table |
| TranslationTable.FixedSizeTranslationTable.PopulateTtEntries | crates/em-kernel/src/arch/aarch64/memory/translation_table.rs:213-229 | success exactly when every page resolves, and then each lvl2[i] points at level-3 table i and each lvl3[i][j] is the page descriptor of its page; on the first failing entry the error is returned, entries before it are written, entries after it are untouched, and lvl2 is written up to that table |
| Mmu.Aarch64Mmu.constructor | crates/em-kernel/src/arch/aarch64/memory/mod.rs:22-23 | the unit starts with the given register values and an empty trace |
| Mmu.Aarch64Mmu.IsEnabled | crates/em-kernel/src/arch/aarch64/memory/mod.rs:112-115 | translation is on exactly when SCTLR_EL1.M is set |
| Mmu.Aarch64Mmu.Enable | crates/em-kernel/src/arch/aarch64/memory/mod.rs:75-110 | if already enabled: AlreadyEnabled with nothing touched; if the 64 KiB granule is unsupported: UnsupportedGranule with nothing touched; if population fails: Other(error), only MAIR_EL1 written, translation off; otherwise MAIR, tables, TTBR0 = level-2 base, TCR, ISB, SCTLR M/C/I set with other bits kept, ISB, in that order, and translation on |
| Mmu.EnableTwice | crates/em-kernel/src/arch/aarch64/memory/mod.rs:76-78 | after a successful enable a second one returns AlreadyEnabled; after a failed one the second fails the same way; translation is on exactly when it was on before or the first call succeeded |
| Board.MmioStart | crates/em-kernel/src/board/raspi/memory.rs:17-34 | START is 0x3F00_0000 (Raspberry Pi 3) or 0xFE00_0000 (Raspberry Pi 4); it is 64 KiB aligned and the remapped target page START + 0x20_0000 lies inside the address space |
| Board.GpioStart | crates/em-kernel/src/board/raspi/memory.rs:12-34 | GPIO_START is a page address inside START..=0xFFFF_FFFF |
| Board.Pl011UartStart | crates/em-kernel/src/board/raspi/memory.rs:12-34 | PL011_UART_START lies inside START..=0xFFFF_FFFF, in the same 64 KiB page as GPIO_START |
| Board.Layout | crates/em-kernel/src/board/raspi/memory.rs:59-93 | LAYOUT: the kernel-code range code_start..=code_end_exclusive, the remapped window and the Device MMIO range, in that order; the remapped window lies below the Device MMIO range, which ends at the maximum 0xFFFF_FFFF |
| Board.KernelAddressSpaceGeometry | crates/em-kernel/src/board/raspi/memory.rs:96 | the 4 GiB kernel address space is valid, with SHIFT 32, T0SZ 32 and eight level-2 tables |
| Board.KernelCodeMapping | crates/em-kernel/src/board/raspi/memory.rs:62-71 | every address of the kernel-code range code_start..=code_end_exclusive is identity-mapped as Normal, read-only and never executable |
| Board.RemappedMmioMapping | crates/em-kernel/src/board/raspi/memory.rs:72-81 | an address of 0x1FFF_0000..=0x1FFF_FFFF outside the kernel-code range maps to START + 0x20_0000 plus the offset into the window, as Device read-write |
| Board.DeviceMmioMapping | crates/em-kernel/src/board/raspi/memory.rs:82-91 | an address of START..=0xFFFF_FFFF outside the kernel-code range is identity-mapped as Device read-write |
| Board.DramMapping | crates/em-kernel/src/board/raspi/memory.rs:55-60 | an address below START in neither the kernel-code range nor the remapped window is identity-mapped with the default attributes |
| Board.DeviceRegistersReachable | crates/em-kernel/src/board/raspi/memory.rs:17-34 | when the kernel-code range ends below 0x1FFF_0000, GPIO_START and PL011_UART_START are identity-mapped Device memory, and the remapped window reaches them at 0x1FFF_0000 and 0x1FFF_1000 |
| Board.AllPagesResolve | crates/em-kernel/src/board/raspi/memory.rs:59-60 | whatever the code bounds, every page of the eight level-3 tables resolves under LAYOUT, so population cannot fail |
| Board.BoardPageEntriesRoundTrip | crates/em-kernel/src/board/raspi/memory.rs:59-93 | whatever the code bounds, every page entry built from LAYOUT decodes to exactly the address and attributes its page resolves to |
| Board.SingleSmallDeviceRegion | crates/em-kernel/src/arch/aarch64/memory/translation_table.rs:218-224 | with one Device region 0x0–0xFFF in a 4 GiB space, the first leaf entry is Device and every other entry has the default attributes |
| Board.PageAfterCodeReadOnlyAsWritten | crates/em-kernel/src/board/raspi/memory.rs:64 | as written, with code at 0x8_0000..0x9_0000 the page at 0x9_0000 is stored read-only |
| Board.CorrectedLayout | crates/em-kernel/src/board/raspi/memory.rs:46-53 | LAYOUT with the code range ending at code_end_exclusive - 1: the code region holds code_end_exclusive - 1 but not code_end_exclusive, and the other regions are LAYOUT's |
| Board.KernelCodeRegionExact | crates/em-kernel/src/board/raspi/memory.rs:46-53 | with the corrected range, below the MMIO regions an address is mapped as code exactly when it lies in code_start..code_end_exclusive |
| Board.PageAfterCodeReadWrite | crates/em-kernel/src/board/raspi/memory.rs:64 | with the corrected range and the same input, the last code page stays read-only and the page at code_end_exclusive is read-write |
| Board.EnableOnBoard | crates/em-kernel/src/arch/aarch64/memory/mod.rs:89-91 | with LAYOUT (any code bounds) and the 64 KiB granule supported, enabling from off always succeeds, turns translation on and sets T0SZ to 32 |
| Driver.SomeValuesOfFilledPrefix | crates/em-kernel/src/driver/mod.rs:96-104 | slots filled in installation order and then empty give back exactly the installed descriptors, in order |
| Driver.DriverManager.constructor | crates/em-kernel/src/driver/mod.rs:12-17 | the manager starts with next_index 0, every slot empty and nothing installed |
| Driver.DriverManager.Install | crates/em-kernel/src/driver/mod.rs:60-68 | the descriptor goes into slot next_index, next_index goes up by one, other slots are unchanged, and the slot invariant is kept |
| Driver.DriverManager.ForEachDescriptor | crates/em-kernel/src/driver/mod.rs:96-104 | the occupied slots are visited in slot order, which is exactly the installation order |
| Driver.DriverManager.Initialize | crates/em-kernel/src/driver/mod.rs:70-94 | initialisation follows the run of the installed drivers in order; driver names are logged, in order, only when every driver came up |
| Driver.InitializeAll | crates/em-kernel/src/driver/mod.rs:71-87 | the first pass takes exactly the steps and outcome of `Run` on the installed drivers: init then post-init for each, stopping at the first failure |
| Driver.LogNames | crates/em-kernel/src/driver/mod.rs:89-93 | the second pass logs every driver's name once, in installation order |
| Driver.Run | crates/em-kernel/src/driver/mod.rs:71-87 | the steps taken are a prefix of every driver's init and post-init steps in order, all of them when the run completes; a failed run reports the failure of one of the drivers |
| Driver.RunCompletesIff | crates/em-kernel/src/driver/mod.rs:70-87 | initialisation completes exactly when every driver's init and post-init succeed, and then every driver's steps ran in order |
| Driver.RunStopsAtFirstFailure | crates/em-kernel/src/driver/mod.rs:72-86 | the first failing driver ends initialisation: earlier drivers ran in full, no later driver ran, and the panic names the failing driver and stage |
| Driver.RunFailureSticks | crates/em-kernel/src/driver/mod.rs:72-84 | after a panic, running the remaining drivers changes nothing |
| Driver.InitsInInstallationOrder | crates/em-kernel/src/driver/mod.rs:71-79 | each driver's init runs once, in installation order, before the next driver's |

## Findings

| source | as written | input that shows it | evidently intended | confidence | as-written member | corrected member |
|---|---|---|---|---|---|---|
| crates/em-kernel/src/board/raspi/memory.rs:64 | the kernel-code region is `code_start()..=code_end_exclusive()`, an inclusive range up to the exclusive end | code at 0x8_0000 with code_end_exclusive = 0x9_0000 (a page address): the page at 0x9_0000, which holds what follows the code, is mapped read-only | the range ends at `code_end_exclusive() - 1`, so the page after the code keeps the default read-write mapping | medium, not executed | Board.PageAfterCodeReadOnlyAsWritten | Board.KernelCodeRegionExact |

`Board.Layout` is LAYOUT as written. `Board.CorrectedLayout` is the
corrected layout. The board lemmas and `Board.EnableOnBoard` are stated for
every code end, so they hold for both layouts.

## Left out

- Integer widths: addresses are unbounded naturals, not 64-bit `usize`. The overflow of `a + (virt_addr - start)` in an Offset translation is not modelled. The MAIR, TTBR0 and SCTLR values are naturals.
- Register encodings. The bit layouts of MAIR_EL1, TCR_EL1, SCTLR_EL1 and TTBR0_EL1 come from the external `aarch64-cpu` and `tock-registers` crates, which are not part of this model. Those registers are field-level records. Only the MAIR_EL1 attribute bytes and the translation-table descriptors are modelled bit by bit.
- Registers.TcrValue: states only T0SZ, TG0 and the two walk enables in its contract. The other fields (IPS = 40 bits, inner shareable, write-back read/write-allocate, A1 = TTBR0, TBI0 = Used) are set in its body but not repeated in the contract.
- TranslationTable.PageDescriptor: its own contract states only that bits 63:55 are clear. The field contents are stated in `PageDescriptorFields`.
- Hardware reads. ID_AA64MMFR0_EL1.TGran64 is a constructor parameter of the MMU. SCTLR_EL1.M is a field, not a hardware read.
- Barriers and caches. The ISB barriers are events in the trace; their effect on the pipeline and the caches is not modelled.
- Linker symbols and pointer casts. `__code_start`, `__code_end_exclusive` and the physical address of `KERNEL_TABLES` are parameters. The table aggregate is assumed 64 KiB aligned, as `repr(align(65536))` requests.
- Globals. The `static mut KERNEL_TABLES`, the `MMU` singleton, `LAYOUT` and `DRIVER_MANAGER` are objects passed to the model's methods. `virtual_memory_layout` and `manager` only return these statics and have no member of their own.
- Display output. `Display` for `EnableError` and `TranslationDescriptor`, and `print_layout`, produce console text and are not modelled.
- Driver.DriverManager.Install: the panic on a sixth driver is a precondition (`nextIndex < MAX_DRIVERS`), not an error path.
- Driver.DriverManager.Initialize: a panic is an outcome value that ends the sequence. The message text is not modelled.
- Drivers and callbacks. `init` and the post-init callbacks are foreign code. Their success is an input function, and their side effects are not modelled.
- Locking. The registry's `Mutex` runs its closure without any locking, so the model has no lock. Concurrency is not modelled.
- Board selection. The Raspberry Pi 3 or 4 is chosen by a build feature; here it is a `Raspi` parameter.
