/**
 * The dual-lane codec of the NOR flash driver.
 *
 * The flash bank is two 16-bit Intel P30 parts side by side on a 32-bit data
 * bus: the upper 16 bits of every bus word belong to one chip, the lower 16
 * bits to the other. A command is therefore replicated into both lanes, and
 * what the chips answer is folded back into one 16-bit value.
 *
 * Each macro is modelled as a function over argument VALUES. The macros do
 * not parenthesise their parameters, so a compound argument would expand
 * differently; that textual hazard is not modelled.
 */
module DualLane {

  // The masks LOW_16_BITS (0x0000FFFF) and LOW_8_BITS (0x000000FF), which
  // the macros use, appear below as literals: the verifier reasons about
  // bit-vector literals far more cheaply than about named constants.

  /** The 16-bit value carried by the upper chip's lane, moved down to bits 0..15. */
  function HighLane(w: bv32): bv32 { w >> 16 }

  /** The 16-bit value carried by the lower chip's lane. */
  function LowLane(w: bv32): bv32 { w & 0xFFFF }

  /** A bus word whose two lanes carry the same 16-bit value. */
  predicate IsDual(w: bv32) { HighLane(w) == LowLane(w) }

  /**
   * FOLD_32BIT_INTO_16BIT: the OR of the two lanes. The result fits in 16
   * bits and is the common lane value of a dual-lane word; the lemmas
   * FoldKeepsLanes and FoldAddsNothing say which bits it holds.
   */
  function Fold32BitInto16Bit(value: bv32): (r: bv32)
    ensures r <= 0xFFFF
    ensures IsDual(value) ==> r == LowLane(value)
  {
    (value >> 16) | (value & 0xFFFF)
  }

  /** Every bit set in either lane is set in the folded value. */
  lemma FoldKeepsLanes(value: bv32)
    ensures Fold32BitInto16Bit(value) & HighLane(value) == HighLane(value)
    ensures Fold32BitInto16Bit(value) & LowLane(value) == LowLane(value)
  {
  }

  /** A bit set in neither lane is clear in the folded value. */
  lemma FoldAddsNothing(value: bv32)
    ensures Fold32BitInto16Bit(value) & !(HighLane(value) | LowLane(value)) == 0
  {
  }

  /** GET_LOW_BYTE: the low byte of the lower lane, that is, the value modulo 256. */
  function GetLowByte(value: bv32): (r: bv32)
    ensures r <= 0xFF
    ensures r == value % 0x100
  {
    value & 0xFF
  }

  /** GET_HIGH_BYTE: the low byte of the upper lane, that is, bits 16..23 of the word. */
  function GetHighByte(value: bv32): (r: bv32)
    ensures r <= 0xFF
    ensures r == (value / 0x1_0000) % 0x100
  {
    GetLowByte(value >> 16)
  }

  /**
   * CREATE_DUAL_CMD: the low 16 bits of the command in both lanes. Any
   * higher bit of the argument is shifted out of the 32-bit word, so the
   * result is dual-lane for every argument.
   */
  function CreateDualCmd(cmd: bv32): (w: bv32)
    ensures HighLane(w) == LowLane(w) == cmd & 0xFFFF
  {
    (cmd << 16) | (cmd & 0xFFFF)
  }

  /** For a 16-bit command both lanes carry exactly the command: the same opcode reaches both chips. */
  lemma DualCmdLanes(cmd: bv32)
    requires cmd <= 0xFFFF
    ensures IsDual(CreateDualCmd(cmd))
    ensures HighLane(CreateDualCmd(cmd)) == cmd
    ensures LowLane(CreateDualCmd(cmd)) == cmd
  {
  }

  /** A bus word is determined by the values of its two lanes. */
  lemma LanesDetermineWord(a: bv32, b: bv32)
    requires HighLane(a) == HighLane(b) && LowLane(a) == LowLane(b)
    ensures a == b
  {
  }

  /** A dual-lane word is exactly the encoding of its own lane value. */
  lemma DualIffEncoded(w: bv32)
    ensures IsDual(w) <==> w == CreateDualCmd(LowLane(w))
  {
    if IsDual(w) {
      LanesDetermineWord(w, CreateDualCmd(LowLane(w)));
    }
  }

  /** Folding undoes the encoding of every 16-bit command. */
  lemma FoldCreateDualCmd(cmd: bv32)
    requires cmd <= 0xFFFF
    ensures Fold32BitInto16Bit(CreateDualCmd(cmd)) == cmd
  {
  }

  /** Two distinct 16-bit commands have distinct encodings. */
  lemma CreateDualCmdInjective(c1: bv32, c2: bv32)
    requires c1 <= 0xFFFF && c2 <= 0xFFFF
    ensures CreateDualCmd(c1) == CreateDualCmd(c2) <==> c1 == c2
  {
  }

  /** For a one-byte command both byte pickers return the command itself. */
  lemma ByteLanesOfDualCmd(cmd: bv32)
    requires cmd <= 0xFF
    ensures GetHighByte(CreateDualCmd(cmd)) == cmd
    ensures GetLowByte(CreateDualCmd(cmd)) == cmd
  {
  }

  /** The OR of two dual-lane words is dual-lane. */
  lemma OrOfDual(a: bv32, b: bv32)
    requires IsDual(a) && IsDual(b)
    ensures IsDual(a | b)
  {
  }
}
