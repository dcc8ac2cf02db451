/**
 * Address arithmetic of the NOR flash bank.
 *
 * The bank is addressed in 32-bit device words: word offset o from a base
 * address lies 4*o bytes further on, and logical block lba of a region
 * starts lba*blockSize bytes after the region's base. All of it is UINTN
 * arithmetic, so every result wraps modulo 2^32; the lemmas say when it
 * does not.
 */
module NorAddress {
  import opened MachineWords

  /**
   * CREATE_NOR_ADDRESS(BaseAddr, OffsetAddr): the byte address of device
   * word OffsetAddr. The shift truncates to UINTN and so does the sum, which
   * together is one truncation of base + 4 * offset.
   */
  function CreateNorAddress(base: Uintn, offset: Uintn): (a: Uintn)
    ensures a == ToUintn(base + 4 * offset)
  {
    TruncateSummand(base, offset * 4);
    ToUintn(base + ToUintn(offset * 4))
  }

  /** Without wrap-around the address is exactly base + 4 * offset. */
  lemma CreateNorAddressExact(base: Uintn, offset: Uintn)
    requires base + 4 * offset < UintnModulus
    ensures CreateNorAddress(base, offset) == base + 4 * offset
  {
  }

  /** Consecutive word offsets are 4 bytes apart (modulo 2^32). */
  lemma CreateNorAddressStep(base: Uintn, offset: Uintn)
    requires offset + 1 < UintnModulus
    ensures CreateNorAddress(base, offset + 1) == ToUintn(CreateNorAddress(base, offset) + 4)
  {
    var x := base + 4 * offset;
    assert base + 4 * (offset + 1) == 4 + x;
    TruncateSummand(4, x);
    assert ToUintn(4 + ToUintn(x)) == ToUintn(4 + x);
  }

  /** From a 4-byte-aligned base every word address is 4-byte aligned, wrapped or not. */
  lemma CreateNorAddressAligned(base: Uintn, offset: Uintn)
    requires base % 4 == 0
    ensures CreateNorAddress(base, offset) % 4 == 0
  {
    TruncateKeepsAlignment(base + 4 * offset, base / 4 + offset);
  }

  /**
   * GET_NOR_BLOCK_ADDRESS(BaseAddr, Lba, LbaSize): the start of logical
   * block lba. The product is formed in 64 bits (EFI_LBA is a UINT64), cast
   * to UINTN and added to the base in UINTN, which together is one
   * truncation of base + lba * lbaSize.
   */
  function GetNorBlockAddress(base: Uintn, lba: Uint64, lbaSize: Uintn): (a: Uintn)
    ensures a == ToUintn(base + lba * lbaSize)
  {
    TruncateTwice(lba * lbaSize);
    TruncateSummand(base, lba * lbaSize);
    ToUintn(base + ToUintn(ToUint64(lba * lbaSize)))
  }

  /** Without wrap-around the block starts exactly lba * lbaSize bytes after the base. */
  lemma GetNorBlockAddressExact(base: Uintn, lba: Uint64, lbaSize: Uintn)
    requires base + lba * lbaSize < UintnModulus
    ensures GetNorBlockAddress(base, lba, lbaSize) == base + lba * lbaSize
  {
  }

  /**
   * From a 4-byte-aligned base with a block size that is a multiple of 4,
   * every block address is word-aligned, wrapped or not.
   */
  lemma GetNorBlockAddressAligned(base: Uintn, lba: Uint64, lbaSize: Uintn)
    requires base % 4 == 0 && lbaSize % 4 == 0
    ensures GetNorBlockAddress(base, lba, lbaSize) % 4 == 0
  {
    var k := lbaSize / 4;
    var p := lba * k;
    assert lba * lbaSize == 4 * p by {
      assert lbaSize == 4 * k;
    }
    TruncateKeepsAlignment(base + lba * lbaSize, base / 4 + p);
  }

  /** Truncation to UINTN keeps a multiple of 4 a multiple of 4. */
  lemma TruncateKeepsAlignment(x: int, t: int)
    requires x == 4 * t
    ensures ToUintn(x) % 4 == 0
  {
    var q := x / UintnModulus;
    assert ToUintn(x) == 4 * (t - 0x4000_0000 * q);
  }

  /** A larger block number gives a later start, as long as no address wraps. */
  lemma GetNorBlockAddressIncreasing(base: Uintn, lba1: Uint64, lba2: Uint64, lbaSize: Uintn)
    requires lba1 < lba2 && 0 < lbaSize
    requires base + lba2 * lbaSize < UintnModulus
    ensures GetNorBlockAddress(base, lba1, lbaSize) < GetNorBlockAddress(base, lba2, lbaSize)
  {
    MulStrictlyIncreasing(lba1, lba2, lbaSize);
    GetNorBlockAddressExact(base, lba1, lbaSize);
    GetNorBlockAddressExact(base, lba2, lbaSize);
  }

  /** Block lba + 1 starts where block lba ends, as long as no address wraps. */
  lemma GetNorBlockAddressConsecutive(base: Uintn, lba: Uint64, lbaSize: Uintn)
    requires lba + 1 < Uint64Modulus
    requires base + (lba + 1) * lbaSize < UintnModulus
    ensures GetNorBlockAddress(base, lba + 1, lbaSize) == GetNorBlockAddress(base, lba, lbaSize) + lbaSize
  {
    MulMonotone(lba, lba + 1, lbaSize);
    GetNorBlockAddressExact(base, lba + 1, lbaSize);
    GetNorBlockAddressExact(base, lba, lbaSize);
    assert (lba + 1) * lbaSize == lba * lbaSize + lbaSize;
  }

  /**
   * In a region of blockCount blocks that does not reach past the top of
   * the address space, every block lba < blockCount lies wholly inside
   * [base, base + blockCount * lbaSize).
   */
  lemma GetNorBlockAddressInRegion(base: Uintn, lba: Uint64, blockCount: nat, lbaSize: Uintn)
    requires lba < blockCount
    requires base + blockCount * lbaSize <= UintnModulus
    ensures base <= GetNorBlockAddress(base, lba, lbaSize)
    ensures GetNorBlockAddress(base, lba, lbaSize) + lbaSize <= base + blockCount * lbaSize
  {
    var start, regionEnd := lba * lbaSize, blockCount * lbaSize;
    MulMonotone(lba + 1, blockCount, lbaSize);
    assert (lba + 1) * lbaSize == start + lbaSize;
    assert base + start + lbaSize <= base + regionEnd <= UintnModulus;
    assert base + start < UintnModulus;
    GetNorBlockAddressExact(base, lba, lbaSize);
    assert GetNorBlockAddress(base, lba, lbaSize) == base + start;
  }

  /** x < y and 0 < k give x * k < y * k. */
  lemma {:induction false} MulStrictlyIncreasing(x: nat, y: nat, k: nat)
    requires x < y && 0 < k
    ensures x * k < y * k
  {
    if y == x + 1 {
      assert y * k == x * k + k;
    } else {
      MulStrictlyIncreasing(x, y - 1, k);
      assert y * k == (y - 1) * k + k;
    }
  }

  /** x <= y gives x * k <= y * k. */
  lemma MulMonotone(x: nat, y: nat, k: nat)
    requires x <= y
    ensures x * k <= y * k
  {
    if x < y && 0 < k {
      MulStrictlyIncreasing(x, y, k);
    }
  }
}
