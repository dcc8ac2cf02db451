/**
 * Sending a command to the bank (SEND_NOR_COMMAND). The real macro performs
 * a volatile 32-bit store; here the store is represented by the bus write it
 * would perform: the target address and the value written.
 */
module NorBus {
  import opened MachineWords
  import opened DualLane
  import opened NorAddress
  import opened P30Commands

  /** One 32-bit store on the memory bus. */
  datatype BusWrite = BusWrite(address: Uintn, value: bv32)

  /**
   * SEND_NOR_COMMAND(BaseAddr, OffsetAddr, Cmd): the dual-lane command word
   * stored at device word OffsetAddr of the bank at BaseAddr.
   */
  function SendNorCommand(base: Uintn, offset: Uintn, cmd: bv32): (w: BusWrite)
    ensures w.address == ToUintn(base + 4 * offset)
    ensures IsDual(w.value) && LowLane(w.value) == cmd & 0xFFFF
  {
    BusWrite(CreateNorAddress(base, offset), CreateDualCmd(cmd))
  }

  /**
   * Both chips decode the opcode of every sent P30 command: each lane of the
   * stored word holds the opcode, and so does its fold.
   */
  lemma SentCommandDecodes(base: Uintn, offset: Uintn, c: Command)
    ensures GetLowByte(SendNorCommand(base, offset, Opcode(c)).value) == Opcode(c)
    ensures GetHighByte(SendNorCommand(base, offset, Opcode(c)).value) == Opcode(c)
    ensures Fold32BitInto16Bit(SendNorCommand(base, offset, Opcode(c)).value) == Opcode(c)
  {
    CommandReachesBothChips(c);
  }
}
