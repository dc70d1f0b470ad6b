/**
 * Compile-time geometry of the AArch64 stage-1 translation regime: translation
 * granules and the kernel address space, each a power-of-two size with
 * SHIFT = log2(SIZE), plus the architecture's restrictions on the address
 * space (a whole number of 512 MiB level-2 entries, at most 48 bits).
 *
 * The source asserts these conditions in `const fn`s, so a bad size stops the
 * build; here each such assertion is a precondition.
 */
module Geometry {

  /** 2^n */
  function Pow2(n: nat): (r: nat)
    ensures r > 0
  {
    if n == 0 then 1 else 2 * Pow2(n - 1)
  }

  /** usize::is_power_of_two */
  predicate IsPowerOfTwo(n: nat)
    decreases n
  {
    n == 1 || (n > 1 && n % 2 == 0 && IsPowerOfTwo(n / 2))
  }

  /** usize::trailing_zeros for a non-zero value */
  function TrailingZeros(n: nat): nat
    requires n > 0
    decreases n
  {
    if n % 2 == 1 then 0 else 1 + TrailingZeros(n / 2)
  }

  lemma {:induction false} Pow2Add(a: nat, b: nat)
    ensures Pow2(a + b) == Pow2(a) * Pow2(b)
  {
    if a > 0 {
      Pow2Add(a - 1, b);
    }
  }

  /** The trailing-zero count of a power of two is its logarithm: 1 << SHIFT == SIZE. */
  lemma {:induction false} ShiftOfPowerOfTwo(n: nat)
    requires IsPowerOfTwo(n)
    ensures n > 0 && Pow2(TrailingZeros(n)) == n
  {
    if n != 1 {
      ShiftOfPowerOfTwo(n / 2);
    }
  }

  /** Every 2^k is a power of two, and its trailing-zero count is k. */
  lemma {:induction false} PowerOfTwoOfShift(k: nat)
    ensures IsPowerOfTwo(Pow2(k)) && TrailingZeros(Pow2(k)) == k
  {
    if k > 0 {
      PowerOfTwoOfShift(k - 1);
      assert Pow2(k) / 2 == Pow2(k - 1);
    }
  }

  /** TranslationGranule::SHIFT: the granule's size must be a power of two, and SHIFT = log2(SIZE). */
  function GranuleShift(size: nat): (shift: nat)
    requires IsPowerOfTwo(size)
    ensures Pow2(shift) == size
  {
    ShiftOfPowerOfTwo(size);
    TrailingZeros(size)
  }

  /** 512 MiB, the span of one level-2 entry with the 64 KiB granule. */
  const GRANULE_512MIB_SIZE: nat := 512 * 1024 * 1024
  /** 64 KiB, the leaf page size. */
  const GRANULE_64KIB_SIZE: nat := 64 * 1024
  /** 2^48, the largest virtual address space every ARMv8 implementation supports. */
  const MAX_ADDRESS_SPACE_SIZE: nat := 0x1_0000_0000_0000

  lemma Pow2Constants()
    ensures Pow2(16) == GRANULE_64KIB_SIZE
    ensures Pow2(29) == GRANULE_512MIB_SIZE
    ensures Pow2(48) == MAX_ADDRESS_SPACE_SIZE
  {
    assert Pow2(8) == 256;
    Pow2Add(8, 8);
    Pow2Add(16, 8);
    assert Pow2(5) == 32;
    Pow2Add(24, 5);
    Pow2Add(16, 16);
    Pow2Add(32, 16);
  }

  /** The two granule aliases: Granule512MiB has SHIFT 29, Granule64KiB has SHIFT 16. */
  lemma GranuleShifts()
    ensures IsPowerOfTwo(GRANULE_512MIB_SIZE) && GranuleShift(GRANULE_512MIB_SIZE) == 29
    ensures IsPowerOfTwo(GRANULE_64KIB_SIZE) && GranuleShift(GRANULE_64KIB_SIZE) == 16
  {
    Pow2Constants();
    PowerOfTwoOfShift(29);
    PowerOfTwoOfShift(16);
  }

  /**
   * AddressSpace::arch_check_address_space_size: at least one full 512 MiB
   * level-2 entry's worth (a multiple of it) and no more than 2^48 bytes.
   */
  predicate ArchCheckAddressSpaceSize(size: nat)
  {
    size % GRANULE_512MIB_SIZE == 0 && size <= MAX_ADDRESS_SPACE_SIZE
  }

  /** AddressSpace::size_checked: a power of two that passes the architecture check. */
  predicate ValidAddressSpace(size: nat)
  {
    IsPowerOfTwo(size) && ArchCheckAddressSpaceSize(size)
  }

  /**
   * AddressSpace::SHIFT. For a valid address space the shift lies between 29
   * (one 512 MiB entry) and 48.
   */
  function AddressSpaceShift(size: nat): (shift: nat)
    requires ValidAddressSpace(size)
    ensures Pow2(shift) == size
    ensures 29 <= shift <= 48
  {
    ShiftOfPowerOfTwo(size);
    var s := TrailingZeros(size);
    Pow2Constants();
    ShiftBounds(s);
    s
  }

  /** Between 2^29 and 2^48 only the exponents 29..48 fit. */
  lemma ShiftBounds(s: nat)
    requires Pow2(s) % GRANULE_512MIB_SIZE == 0 && Pow2(s) <= MAX_ADDRESS_SPACE_SIZE
    requires Pow2(29) == GRANULE_512MIB_SIZE && Pow2(48) == MAX_ADDRESS_SPACE_SIZE
    ensures 29 <= s <= 48
  {
    if s < 29 {
      Pow2Monotonic(s, 28);
      assert Pow2(29) == 2 * Pow2(28);
      DivModUnique(Pow2(s), GRANULE_512MIB_SIZE, 0, Pow2(s));
      assert false;
    }
    if s > 48 {
      Pow2Monotonic(49, s);
      assert false;
    }
  }

  /** x = q * p + r with 0 <= r < p determines x / p and x % p. */
  lemma DivModUnique(x: int, p: int, q: int, r: int)
    requires p > 0 && 0 <= r < p && x == q * p + r
    ensures x / p == q && x % p == r
  {
    var d, m := x / p, x % p;
    if d > q {
      assert (d - q) * p == r - m;
      MulAtLeast(d - q, p);
      assert false;
    } else if d < q {
      assert (q - d) * p == m - r;
      MulAtLeast(q - d, p);
      assert false;
    }
  }

  lemma MulAtLeast(k: int, p: int)
    requires k >= 1 && p > 0
    ensures k * p >= p
  {
  }

  /**
   * On a power of two 2^k, the architecture check accepts exactly the
   * exponents 29 (one 512 MiB entry) to 48.
   */
  lemma ArchCheckIffShiftInRange(k: nat)
    ensures ArchCheckAddressSpaceSize(Pow2(k)) <==> 29 <= k <= 48
  {
    Pow2Constants();
    if 29 <= k <= 48 {
      Pow2Add(k - 29, 29);
      DivModUnique(Pow2(k), GRANULE_512MIB_SIZE, Pow2(k - 29), 0);
      Pow2Monotonic(k, 48);
    } else if ArchCheckAddressSpaceSize(Pow2(k)) {
      ShiftBounds(k);
      assert false;
    }
  }

  lemma {:induction false} Pow2Monotonic(a: nat, b: nat)
    requires a <= b
    ensures Pow2(a) <= Pow2(b)
  {
    if a < b {
      Pow2Monotonic(a, b - 1);
    }
  }

  /**
   * NUM_LVL2_TABLES = AS_SIZE >> Granule512MiB::SHIFT: the number of level-2
   * entries (and level-3 tables) that cover the address space exactly.
   */
  function NumLvl2Tables(asSize: nat): (n: nat)
    requires ValidAddressSpace(asSize)
    ensures n > 0 && n * GRANULE_512MIB_SIZE == asSize
  {
    ShiftOfPowerOfTwo(asSize);
    asSize / GRANULE_512MIB_SIZE
  }

  /** Leaf entries per level-3 table: 512 MiB / 64 KiB. */
  const ENTRIES_PER_TABLE: nat := 8192

  /**
   * TCR_EL1.T0SZ = 64 - AddressSpace::SHIFT: the region size field, which
   * encodes the address space as 2^(64 - T0SZ) bytes.
   */
  function T0sz(asSize: nat): (t0sz: nat)
    requires ValidAddressSpace(asSize)
    ensures 16 <= t0sz <= 35
    ensures Pow2(64 - t0sz) == asSize
  {
    64 - AddressSpaceShift(asSize)
  }
}
