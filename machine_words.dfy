/**
 * Machine integers of the 32-bit ARM Versatile Express platform.
 *
 * UINTN is 32 bits wide on this platform and EFI_LBA is a 64-bit unsigned
 * integer. Address arithmetic is modelled on mathematical integers with the
 * wrap-around of C unsigned arithmetic written out; bus data words, on which
 * the driver only shifts and masks, are modelled as `bv32` (see DualLane).
 */
module MachineWords {

  /** 2^32: every UINTN operation is taken modulo this value. */
  const UintnModulus: int := 0x1_0000_0000

  /** 2^64: every EFI_LBA (UINT64) operation is taken modulo this value. */
  const Uint64Modulus: int := 0x1_0000_0000_0000_0000

  /** A UINTN value on a 32-bit target. */
  type Uintn = x: int | 0 <= x < 0x1_0000_0000

  /** A UINT64 value, the type of an EFI_LBA. */
  type Uint64 = x: int | 0 <= x < 0x1_0000_0000_0000_0000

  /** Truncation of a mathematical result to UINTN, as C unsigned arithmetic does. */
  function ToUintn(x: int): (r: Uintn)
    ensures 0 <= x < UintnModulus ==> r == x
  {
    x % UintnModulus
  }

  /** Truncation of a mathematical result to UINT64. */
  function ToUint64(x: int): (r: Uint64)
    ensures 0 <= x < Uint64Modulus ==> r == x
  {
    x % Uint64Modulus
  }

  /** Truncating to 64 bits first and to 32 bits afterwards loses no more than truncating to 32 bits. */
  lemma TruncateTwice(x: int)
    ensures ToUintn(ToUint64(x)) == ToUintn(x)
  {
    var q := x / Uint64Modulus;
    assert x == q * Uint64Modulus + ToUint64(x);
    assert q * Uint64Modulus == (q * 0x1_0000_0000) * UintnModulus;
    ModMultipleAdd(ToUint64(x), q * 0x1_0000_0000);
  }

  /** Adding a multiple of 2^32 does not change the UINTN truncation. */
  lemma ModMultipleAdd(y: int, k: int)
    ensures ToUintn(y + k * UintnModulus) == ToUintn(y)
  {
  }

  /** Truncating an operand of a sum before adding does not change the truncated sum. */
  lemma TruncateSummand(a: int, b: int)
    ensures ToUintn(a + ToUintn(b)) == ToUintn(a + b)
  {
    var q := b / UintnModulus;
    assert b == q * UintnModulus + ToUintn(b);
    ModMultipleAdd(a + ToUintn(b), q);
  }
}
