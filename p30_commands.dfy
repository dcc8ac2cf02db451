/**
 * The command set of the Intel StrataFlash Embedded Memory (P30) family as
 * the driver names it, and the fact that every command is sent identically
 * to both chips of the bank.
 */
module P30Commands {
  import opened DualLane

  /** One named P30 command. Several names share an opcode (see ConfirmOpcode). */
  datatype Command =
    // read commands
    | ReadDeviceId
    | ReadStatusRegister
    | ClearStatusRegister
    | ReadArray
    | ReadCfiQuery
    // write commands
    | WordProgramSetup
    | AlternateWordProgramSetup
    | BufferedProgramSetup
    | BufferedProgramConfirm
    | BefpSetup
    | BefpConfirm
    // erase commands
    | BlockEraseSetup
    | BlockEraseConfirm
    // suspend commands
    | ProgramOrEraseSuspend
    | SuspendResume
    // block locking and unlocking commands
    | LockBlockSetup
    | LockBlock
    | UnlockBlock
    | LockDownBlock
    // protection and configuration commands
    | ProgramProtectionRegisterSetup
    | ReadConfigurationRegisterSetup
    | ReadConfigurationRegister

  /** The P30_CMD_* opcode of a command; every opcode fits in one byte. */
  function Opcode(c: Command): (op: bv32)
    ensures op <= 0xFF
  {
    match c
    case ReadDeviceId => 0x0090
    case ReadStatusRegister => 0x0070
    case ClearStatusRegister => 0x0050
    case ReadArray => 0x00FF
    case ReadCfiQuery => 0x0098
    case WordProgramSetup => 0x0040
    case AlternateWordProgramSetup => 0x0010
    case BufferedProgramSetup => 0x00E8
    case BufferedProgramConfirm => 0x00D0
    case BefpSetup => 0x0080
    case BefpConfirm => 0x00D0
    case BlockEraseSetup => 0x0020
    case BlockEraseConfirm => 0x00D0
    case ProgramOrEraseSuspend => 0x00B0
    case SuspendResume => 0x00D0
    case LockBlockSetup => 0x0060
    case LockBlock => 0x0001
    case UnlockBlock => 0x00D0
    case LockDownBlock => 0x002F
    case ProgramProtectionRegisterSetup => 0x00C0
    case ReadConfigurationRegisterSetup => 0x0060
    case ReadConfigurationRegister => 0x0003
  }

  /**
   * The commands with opcode 0xD0: the four that confirm the second cycle
   * of a buffered program, a BEFP, a block erase or an unlock, and resume.
   */
  predicate IsConfirmOrResume(c: Command) {
    c.BufferedProgramConfirm? || c.BefpConfirm? || c.BlockEraseConfirm?
    || c.SuspendResume? || c.UnlockBlock?
  }

  /** The opcode 0xD0 belongs to exactly the confirm commands and resume. */
  lemma ConfirmOpcode(c: Command)
    ensures Opcode(c) == 0xD0 <==> IsConfirmOrResume(c)
  {
  }

  /**
   * Apart from the confirm commands and resume, only lock-block setup and
   * read-configuration-register setup share an opcode (0x60); every other
   * command is told apart by its opcode.
   */
  lemma OpcodeCollisions(c1: Command, c2: Command)
    requires c1 != c2 && Opcode(c1) == Opcode(c2)
    ensures (IsConfirmOrResume(c1) && IsConfirmOrResume(c2))
         || (Opcode(c1) == 0x60 && (c1.LockBlockSetup? || c1.ReadConfigurationRegisterSetup?)
                               && (c2.LockBlockSetup? || c2.ReadConfigurationRegisterSetup?))
  {
  }

  /**
   * Every command reaches both chips unchanged: both byte pickers and the
   * fold recover the opcode from its dual-lane word.
   */
  lemma CommandReachesBothChips(c: Command)
    ensures IsDual(CreateDualCmd(Opcode(c)))
    ensures GetHighByte(CreateDualCmd(Opcode(c))) == Opcode(c)
    ensures GetLowByte(CreateDualCmd(Opcode(c))) == Opcode(c)
    ensures Fold32BitInto16Bit(CreateDualCmd(Opcode(c))) == Opcode(c)
  {
    ByteLanesOfDualCmd(Opcode(c));
    FoldCreateDualCmd(Opcode(c));
  }
}
