/**
 * The status register of the P30 bank. Each chip reports its own 8-bit
 * status register in its lane, so a named status bit is read through a
 * mask that holds that bit in both lanes.
 */
module StatusRegister {
  import opened DualLane

  /** The named bits of a P30 status register. */
  datatype StatusBit =
    | Write           // bit 7: device ready (write state machine status)
    | EraseSuspend    // bit 6
    | Erase           // bit 5: erase error
    | Program         // bit 4: program error
    | Vpp             // bit 3: program/erase voltage error
    | ProgramSuspend  // bit 2
    | BlockLocked     // bit 1: the addressed block is locked
    | Befp            // bit 0: buffered enhanced factory programming status

  /** The documented position of a status bit within one chip's 8-bit register. */
  function BitPosition(b: StatusBit): (k: bv32)
    ensures k < 8
  {
    match b
    case Write => 7
    case EraseSuspend => 6
    case Erase => 5
    case Program => 4
    case Vpp => 3
    case ProgramSuspend => 2
    case BlockLocked => 1
    case Befp => 0
  }

  /**
   * The P30_SR_BIT_* mask of a status bit: the single bit at its documented
   * position, replicated into both lanes.
   */
  function Mask(b: StatusBit): (m: bv32)
    ensures m == CreateDualCmd(1 << BitPosition(b))
  {
    match b
    case Write => 0x00800080
    case EraseSuspend => 0x00400040
    case Erase => 0x00200020
    case Program => 0x00100010
    case Vpp => 0x00080008
    case ProgramSuspend => 0x00040004
    case BlockLocked => 0x00020002
    case Befp => 0x00010001
  }

  /** Distinct status bits sit at distinct positions. */
  lemma BitPositionInjective(b1: StatusBit, b2: StatusBit)
    ensures BitPosition(b1) == BitPosition(b2) <==> b1 == b2
  {
  }

  /** The masks of distinct status bits share no bit. */
  lemma MasksDisjoint(b1: StatusBit, b2: StatusBit)
    requires b1 != b2
    ensures Mask(b1) & Mask(b2) == 0
  {
  }

  /** The OR of the masks of a list of status bits, as the driver combines error bits. */
  function Combined(bits: seq<StatusBit>): (m: bv32)
    ensures IsDual(m)
    ensures m & 0xFF00FF00 == 0
  {
    if |bits| == 0 then 0 else
      OrOfDual(Mask(bits[0]), Combined(bits[1..]));
      Mask(bits[0]) | Combined(bits[1..])
  }

  /**
   * Testing a combined mask against the mask of one status bit sees exactly
   * whether that bit was selected: the masks do not interfere.
   */
  lemma {:induction false} CombinedSelects(bits: seq<StatusBit>, b: StatusBit)
    ensures Combined(bits) & Mask(b) == (if b in bits then Mask(b) else 0)
  {
    if |bits| > 0 {
      CombinedSelects(bits[1..], b);
      if bits[0] != b {
        MasksDisjoint(bits[0], b);
      }
      assert b in bits <==> b == bits[0] || b in bits[1..];
    }
  }

  /** All eight status bits, from bit 7 down to bit 0. */
  const AllStatusBits: seq<StatusBit> :=
    [Write, EraseSuspend, Erase, Program, Vpp, ProgramSuspend, BlockLocked, Befp]

  /** Every status bit is one of the eight listed. */
  lemma EveryStatusBitListed(b: StatusBit)
    ensures b in AllStatusBits
  {
    assert AllStatusBits[7 - BitPosition(b) as int] == b;
  }

  /** The eight masks together cover the whole 8-bit status register of both chips. */
  lemma AllMasksCoverStatusByte()
    ensures Combined(AllStatusBits) == 0x00FF00FF
  {
    assert Combined(AllStatusBits[7..]) == 0x00010001;
    assert Combined(AllStatusBits[6..]) == 0x00030003;
    assert Combined(AllStatusBits[5..]) == 0x00070007;
    assert Combined(AllStatusBits[4..]) == 0x000F000F;
    assert Combined(AllStatusBits[3..]) == 0x001F001F;
    assert Combined(AllStatusBits[2..]) == 0x003F003F;
    assert Combined(AllStatusBits[1..]) == 0x007F007F;
  }
}
