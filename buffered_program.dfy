/**
 * Limits of buffered programming on the P30 bank. Each of the two chips
 * buffers up to 32 16-bit words, so one buffered program writes at most
 * 2 x 32 x 2 = 128 bytes, that is 32 device words of 4 bytes, and must start
 * on a 128-byte boundary.
 */
module BufferedProgram {
  import opened MachineWords
  import opened NorAddress

  /**
   * P30_MAX_BUFFER_SIZE_IN_BYTES: 128 bytes, the two chips' buffers of 32
   * 16-bit words (2 bytes) each.
   */
  function P30MaxBufferSizeInBytes(): (n: Uintn)
    ensures n == 2 * 32 * 2
  {
    128
  }

  /** P30_MAX_BUFFER_SIZE_IN_WORDS: the byte size divided by the 4 bytes of a device word. */
  function P30MaxBufferSizeInWords(): (n: Uintn)
    ensures n == 32
    ensures n * 4 == P30MaxBufferSizeInBytes()
  {
    P30MaxBufferSizeInBytes() / 4
  }

  /** MAX_BUFFERED_PROG_ITERATIONS: the bound on status polls of one buffered program. */
  function MaxBufferedProgIterations(): (n: nat)
    ensures n == 10_000_000
  {
    10000000
  }

  /**
   * BOUNDARY_OF_32_WORDS (0x7F): the mask of an address's offset within a
   * buffer window, one less than the buffer size.
   */
  function BoundaryOf32Words(): (m: bv32)
    ensures m as int == P30MaxBufferSizeInBytes() - 1
  {
    0x7F
  }

  /** An address clears the boundary mask exactly when it is a multiple of the buffer size. */
  lemma BoundaryMaskIffMultiple(x: bv32)
    ensures (x & BoundaryOf32Words() == 0) <==> x % 128 == 0
  {
  }

  /**
   * A full buffer of device words spans exactly the buffer's byte size: word
   * P30MaxBufferSizeInWords() lies P30MaxBufferSizeInBytes() bytes on.
   */
  lemma FullBufferSpan(base: Uintn)
    requires base + P30MaxBufferSizeInBytes() < UintnModulus
    ensures CreateNorAddress(base, P30MaxBufferSizeInWords()) == base + P30MaxBufferSizeInBytes()
  {
  }

  /**
   * Every word of a buffered program that starts on a buffer boundary lies
   * in the same 128-byte window as the start, so the on-chip buffer never
   * straddles a boundary.
   */
  lemma BufferStaysInWindow(base: Uintn, word: Uintn)
    requires base % P30MaxBufferSizeInBytes() == 0
    requires word < P30MaxBufferSizeInWords()
    ensures CreateNorAddress(base, word) / P30MaxBufferSizeInBytes() == base / P30MaxBufferSizeInBytes()
  {
    CreateNorAddressExact(base, word);
  }
}
