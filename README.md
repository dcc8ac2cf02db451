# NOR flash dual-lane codec and address arithmetic (ARM Versatile Express)

This project models the header `NorFlashDxe.h` of the NOR flash driver of the
ARM Versatile Express platform. The flash bank is built from two 16-bit Intel
StrataFlash P30 parts that sit side by side on a 32-bit data bus, so the bank
looks like one 32-bit-wide device. The header holds everything the driver
needs to talk to such a bank:

- the dual-lane codec. `CREATE_DUAL_CMD` replicates a 16-bit command into both
  16-bit lanes of a bus word. `FOLD_32BIT_INTO_16BIT` ORs the two lanes back
  together. `GET_LOW_BYTE` and `GET_HIGH_BYTE` pick the low byte of each lane;
- the address arithmetic. `CREATE_NOR_ADDRESS` turns a device-word offset into
  a byte address, and `GET_NOR_BLOCK_ADDRESS` gives the start of a logical
  block;
- `SEND_NOR_COMMAND`, which stores a dual-lane command at a word address;
- the constant tables: the P30 command opcodes, the status-register masks,
  the buffered-program limits and the CFI signature with its query address.

Every macro becomes a Dafny function over argument values, and the lemmas
prove what the header's comments and layout promise.

Modules, one per concern of the header:

| module | file | contents |
|---|---|---|
| `MachineWords` | `machine_words.dfy` | UINTN (32 bits on this platform) and UINT64 as integer subset types, and their explicit truncation |
| `DualLane` | `dual_lane.dfy` | the lane macros on `bv32` bus words |
| `P30Commands` | `p30_commands.dfy` | the `P30_CMD_*` table as a datatype of named commands |
| `StatusRegister` | `status_register.dfy` | the `P30_SR_BIT_*` masks and how they combine |
| `NorAddress` | `nor_address.dfy` | `CREATE_NOR_ADDRESS` and `GET_NOR_BLOCK_ADDRESS` with their wrap-around |
| `NorBus` | `nor_bus.dfy` | `SEND_NOR_COMMAND` as the bus write it performs |
| `BufferedProgram` | `buffered_program.dfy` | the buffered-program limits and the 128-byte boundary mask |
| `Cfi` | `cfi.dfy` | `CFI_QRY`, the CFI addresses, and little-endian byte packing |

Representation choices:

- Bus data words (commands, status values, CFI data) are `bv32`. The driver
  only shifts, masks and ORs them.
- Addresses and sizes are integers below 2^32 (`Uintn`). The wrap-around of C
  unsigned arithmetic is written out with `ToUintn`. The block number is a
  UINT64, because EFI_LBA is a 64-bit type. `GET_NOR_BLOCK_ADDRESS` therefore
  forms its product modulo 2^64, casts it to UINTN and adds the base modulo
  2^32. The model does exactly these three steps.
- The 0x7F boundary mask is applied to a `bv32` machine word, since it is a
  bitwise AND.
- The masks `LOW_16_BITS` and `LOW_8_BITS` (lines 27-28), which the macros
  use, are written inline as literals. The functions would otherwise refer
  to named constants.
- The `bv32` lemma about the boundary mask
  (`BufferedProgram.BoundaryMaskIffMultiple`) is not linked to the integer
  address lemmas of `NorAddress`. A lemma converting between `bv32` and
  `Uintn` is beyond the solver within the resource limit, so the two sides
  are stated separately.

## Model

| member | source | states |
|---|---|---|
| `MachineWords.ToUintn` | ArmPlatformPkg/ArmVExpressPkg/NorFlashDxe/NorFlashDxe.h:50 | truncation to UINTN keeps every value that already fits in 32 bits |
| `MachineWords.TruncateTwice` | ArmPlatformPkg/ArmVExpressPkg/NorFlashDxe/NorFlashDxe.h:50 | forming a product in 64 bits and then casting it to UINTN gives the product modulo 2^32 |
| `DualLane.Fold32BitInto16Bit` | ArmPlatformPkg/ArmVExpressPkg/NorFlashDxe/NorFlashDxe.h:40 | the folded value fits in 16 bits, and on a dual-lane word it is the common lane value |
| `DualLane.FoldKeepsLanes` | ArmPlatformPkg/ArmVExpressPkg/NorFlashDxe/NorFlashDxe.h:40 | every bit set in either chip's lane is set in the folded value |
| `DualLane.FoldAddsNothing` | ArmPlatformPkg/ArmVExpressPkg/NorFlashDxe/NorFlashDxe.h:40 | a bit set in neither lane is clear in the folded value |
| `DualLane.GetLowByte` | ArmPlatformPkg/ArmVExpressPkg/NorFlashDxe/NorFlashDxe.h:42 | the result is a byte, and it is the word modulo 256 |
| `DualLane.GetHighByte` | ArmPlatformPkg/ArmVExpressPkg/NorFlashDxe/NorFlashDxe.h:43 | the result is a byte: bits 16..23 of the word, which is the low byte of the upper lane |
| `DualLane.CreateDualCmd` | ArmPlatformPkg/ArmVExpressPkg/NorFlashDxe/NorFlashDxe.h:45-48 | for every argument both lanes carry its low 16 bits; the higher bits are shifted out |
| `DualLane.DualCmdLanes` | ArmPlatformPkg/ArmVExpressPkg/NorFlashDxe/NorFlashDxe.h:45-48 | for a 16-bit command the high and the low lane both equal the command, so the same opcode reaches both chips |
| `DualLane.DualIffEncoded` | ArmPlatformPkg/ArmVExpressPkg/NorFlashDxe/NorFlashDxe.h:48 | a word has equal lanes if and only if it is the encoding of its own low lane |
| `DualLane.FoldCreateDualCmd` | ArmPlatformPkg/ArmVExpressPkg/NorFlashDxe/NorFlashDxe.h:40-48 | round trip: folding the encoding of a 16-bit command gives the command back |
| `DualLane.CreateDualCmdInjective` | ArmPlatformPkg/ArmVExpressPkg/NorFlashDxe/NorFlashDxe.h:48 | two 16-bit commands have equal encodings if and only if they are equal |
| `DualLane.ByteLanesOfDualCmd` | ArmPlatformPkg/ArmVExpressPkg/NorFlashDxe/NorFlashDxe.h:42-48 | for a one-byte command the high-byte and the low-byte pickers both return the command |
| `DualLane.OrOfDual` | ArmPlatformPkg/ArmVExpressPkg/NorFlashDxe/NorFlashDxe.h:53-60 | the OR of two dual-lane words is dual-lane |
| `P30Commands.Opcode` | ArmPlatformPkg/ArmVExpressPkg/NorFlashDxe/NorFlashDxe.h:79-113 | the opcode table; every P30 opcode fits in one byte |
| `P30Commands.ConfirmOpcode` | ArmPlatformPkg/ArmVExpressPkg/NorFlashDxe/NorFlashDxe.h:90-105 | opcode 0xD0 belongs to exactly five commands: buffered-program confirm, BEFP confirm, block-erase confirm, unlock-block and suspend-resume, that is the four second-cycle confirms and resume |
| `P30Commands.OpcodeCollisions` | ArmPlatformPkg/ArmVExpressPkg/NorFlashDxe/NorFlashDxe.h:79-113 | two distinct commands share an opcode only if both are among the four second-cycle confirms and resume (0xD0), or if they are lock-block setup and read-configuration-register setup (0x60) |
| `P30Commands.CommandReachesBothChips` | ArmPlatformPkg/ArmVExpressPkg/NorFlashDxe/NorFlashDxe.h:42-48 | for every P30 command, both byte pickers and the fold recover the opcode from its dual-lane word |
| `StatusRegister.BitPosition` | ArmPlatformPkg/ArmVExpressPkg/NorFlashDxe/NorFlashDxe.h:53-60 | each named status bit sits at its documented position, 7 down to 0, inside one chip's 8-bit register |
| `StatusRegister.Mask` | ArmPlatformPkg/ArmVExpressPkg/NorFlashDxe/NorFlashDxe.h:53-60 | each `P30_SR_BIT_*` mask equals `CREATE_DUAL_CMD(1 << k)` for its documented bit k |
| `StatusRegister.BitPositionInjective` | ArmPlatformPkg/ArmVExpressPkg/NorFlashDxe/NorFlashDxe.h:53-60 | two status bits sit at the same position if and only if they are the same bit |
| `StatusRegister.MasksDisjoint` | ArmPlatformPkg/ArmVExpressPkg/NorFlashDxe/NorFlashDxe.h:53-60 | the masks of distinct status bits are pairwise disjoint |
| `StatusRegister.Combined` | ArmPlatformPkg/ArmVExpressPkg/NorFlashDxe/NorFlashDxe.h:53-60 | the OR of any list of status masks is dual-lane and lies inside the two status bytes |
| `StatusRegister.CombinedSelects` | ArmPlatformPkg/ArmVExpressPkg/NorFlashDxe/NorFlashDxe.h:53-60 | ANDing a combined mask with one bit's mask gives that mask if the bit was selected, and zero otherwise |
| `StatusRegister.EveryStatusBitListed` | ArmPlatformPkg/ArmVExpressPkg/NorFlashDxe/NorFlashDxe.h:53-60 | the eight-entry table lists every status bit |
| `StatusRegister.AllMasksCoverStatusByte` | ArmPlatformPkg/ArmVExpressPkg/NorFlashDxe/NorFlashDxe.h:53-60 | the OR of all eight masks is 0x00FF00FF |
| `NorAddress.CreateNorAddress` | ArmPlatformPkg/ArmVExpressPkg/NorFlashDxe/NorFlashDxe.h:47 | `base + (offset << 2)`, with both the shift and the add truncated, is `base + 4 * offset` modulo 2^32 |
| `NorAddress.CreateNorAddressExact` | ArmPlatformPkg/ArmVExpressPkg/NorFlashDxe/NorFlashDxe.h:47 | when nothing wraps, the address is exactly `base + 4 * offset` |
| `NorAddress.CreateNorAddressStep` | ArmPlatformPkg/ArmVExpressPkg/NorFlashDxe/NorFlashDxe.h:47 | consecutive word offsets are 4 bytes apart, modulo 2^32 |
| `NorAddress.CreateNorAddressAligned` | ArmPlatformPkg/ArmVExpressPkg/NorFlashDxe/NorFlashDxe.h:47 | if the base is 4-byte aligned, every produced address is too, even after wrap-around |
| `NorAddress.GetNorBlockAddress` | ArmPlatformPkg/ArmVExpressPkg/NorFlashDxe/NorFlashDxe.h:50 | the 64-bit product, its cast to UINTN and the UINTN add together give `base + lba * size` modulo 2^32 |
| `NorAddress.GetNorBlockAddressExact` | ArmPlatformPkg/ArmVExpressPkg/NorFlashDxe/NorFlashDxe.h:50 | when nothing wraps, the block starts exactly at `base + lba * size` |
| `NorAddress.GetNorBlockAddressAligned` | ArmPlatformPkg/ArmVExpressPkg/NorFlashDxe/NorFlashDxe.h:50 | if the base and the block size are multiples of 4, every block address is 4-byte aligned, even after wrap-around |
| `NorAddress.GetNorBlockAddressIncreasing` | ArmPlatformPkg/ArmVExpressPkg/NorFlashDxe/NorFlashDxe.h:50 | for a nonzero block size and no wrap-around, the block address strictly increases with lba |
| `NorAddress.GetNorBlockAddressConsecutive` | ArmPlatformPkg/ArmVExpressPkg/NorFlashDxe/NorFlashDxe.h:50 | with no wrap-around, block lba + 1 starts exactly where block lba ends |
| `NorAddress.GetNorBlockAddressInRegion` | ArmPlatformPkg/ArmVExpressPkg/NorFlashDxe/NorFlashDxe.h:50 | for lba < n in a region of n blocks below 2^32, the whole block lies in `[base, base + n * size)` |
| `NorBus.SendNorCommand` | ArmPlatformPkg/ArmVExpressPkg/NorFlashDxe/NorFlashDxe.h:49 | the store goes to `base + 4 * offset` modulo 2^32, and its value is dual-lane, carrying the command's low 16 bits |
| `NorBus.SentCommandDecodes` | ArmPlatformPkg/ArmVExpressPkg/NorFlashDxe/NorFlashDxe.h:42-49 | for every P30 command sent, the low byte, the high byte and the fold of the stored word are all the opcode |
| `BufferedProgram.P30MaxBufferSizeInBytes` | ArmPlatformPkg/ArmVExpressPkg/NorFlashDxe/NorFlashDxe.h:67 | `P30_MAX_BUFFER_SIZE_IN_BYTES` is 128, that is 2 chips × 32 words × 2 bytes |
| `BufferedProgram.P30MaxBufferSizeInWords` | ArmPlatformPkg/ArmVExpressPkg/NorFlashDxe/NorFlashDxe.h:68 | `P30_MAX_BUFFER_SIZE_IN_WORDS` is the byte size divided by 4, that is 32 bus words, and 32 words of 4 bytes fill the byte size exactly |
| `BufferedProgram.MaxBufferedProgIterations` | ArmPlatformPkg/ArmVExpressPkg/NorFlashDxe/NorFlashDxe.h:69 | `MAX_BUFFERED_PROG_ITERATIONS` is 10,000,000 |
| `BufferedProgram.BoundaryOf32Words` | ArmPlatformPkg/ArmVExpressPkg/NorFlashDxe/NorFlashDxe.h:70 | `BOUNDARY_OF_32_WORDS` is 0x7F, the buffer byte size minus one |
| `BufferedProgram.BoundaryMaskIffMultiple` | ArmPlatformPkg/ArmVExpressPkg/NorFlashDxe/NorFlashDxe.h:70 | `(x & 0x7F) == 0` holds exactly when x is a multiple of 128 |
| `BufferedProgram.FullBufferSpan` | ArmPlatformPkg/ArmVExpressPkg/NorFlashDxe/NorFlashDxe.h:47-68 | word 32 after a base lies exactly 128 bytes on, so a full buffer of words spans the buffer's byte size |
| `BufferedProgram.BufferStaysInWindow` | ArmPlatformPkg/ArmVExpressPkg/NorFlashDxe/NorFlashDxe.h:64-70 | from a 128-byte-aligned start, each of the 32 words of a buffer lies in the start's 128-byte window |
| `Cfi.P30CfiAddrQueryUniqueQry` | ArmPlatformPkg/ArmVExpressPkg/NorFlashDxe/NorFlashDxe.h:73 | `P30_CFI_ADDR_QUERY_UNIQUE_QRY` is the CFI address 0x10 |
| `Cfi.P30CfiAddrVendorId` | ArmPlatformPkg/ArmVExpressPkg/NorFlashDxe/NorFlashDxe.h:74 | `P30_CFI_ADDR_VENDOR_ID` is 0x13, which is the query address plus the three signature bytes, so the vendor identifier follows the signature directly |
| `Cfi.CfiQry` | ArmPlatformPkg/ArmVExpressPkg/NorFlashDxe/NorFlashDxe.h:77 | `CFI_QRY` is the 32-bit value 0x00595251 |
| `Cfi.PackedByte` | ArmPlatformPkg/ArmVExpressPkg/NorFlashDxe/NorFlashDxe.h:77 | byte i of a little-endian packed word is the i-th byte packed, or zero past the end |
| `Cfi.UnpackPack` | ArmPlatformPkg/ArmVExpressPkg/NorFlashDxe/NorFlashDxe.h:77 | unpacking a word packed from four bytes gives the four bytes back |
| `Cfi.PackUnpack` | ArmPlatformPkg/ArmVExpressPkg/NorFlashDxe/NorFlashDxe.h:77 | packing the four bytes of a word gives the word back |
| `Cfi.CfiQryIsQryString` | ArmPlatformPkg/ArmVExpressPkg/NorFlashDxe/NorFlashDxe.h:77 | `CFI_QRY` is the little-endian packing of "QRY"; its bytes are 0x51, 0x52, 0x59 and a zero top byte |
| `Cfi.QryStringIsAscii` | ArmPlatformPkg/ArmVExpressPkg/NorFlashDxe/NorFlashDxe.h:77 | the three signature bytes are the character codes of 'Q', 'R' and 'Y' |

## Left out

- All functions the header declares are left out. These are the CFI read, the buffered write, the block unlock-and-erase, single-block write, reset, the BlockIo and firmware-volume-block entry points, and the initialisers. The header gives only their prototypes; their bodies are in the driver's C files (`NorFlashDxe.c`, `NorFlashFvbDxe.c` and the BlockIo file), which are not part of this model. Any model of their polling, erase-then-program and block-number checks would be invented.
- The volatile store of `SEND_NOR_COMMAND` is left out because it is memory-mapped I/O. `NorBus.SendNorCommand` returns the address and value of the write instead.
- For `MAX_BUFFERED_PROG_ITERATIONS`, only a function giving its value is kept. The status poll loop that uses it is in a file that is not part of this model.
- `HIGH_16_BITS` (line 26) is left out. The header defines it, but none of its macros uses it.
- `VE_REGISTER_SYS_FLASH_ADDR` and its two offsets are left out. They depend on `ARM_VE_BOARD_PERIPH_BASE` from the platform header, which is not part of this model.
- `NOR_FLASH_SIGNATURE`, the `INSTANCE_FROM_*_THIS` container-of macros and the structures are foreign UEFI framework types with no behaviour to state. This covers `NOR_FLASH_DESCRIPTION`, `NOR_FLASH_DEVICE_PATH`, `NOR_FLASH_INSTANCE`, handles, protocols and GUIDs. `SIGNATURE_32` is defined in `Base.h`, which is not part of this model.
- The macros do not parenthesise their arguments (`Cmd << 16`, `value >> 16`, `Lba * LbaSize`). A compound argument such as `a | b` would therefore expand differently from the value-level functions here. The model states the macros' meaning on argument values and does not model textual expansion.
- `StatusRegister.Combined` models the ORing of status masks. The header itself never ORs them; the driver's error checks that do so are in a file that is not part of this model.
- How `NorFlashReadCfiData` assembles the CFI bytes it reads is not modelled. `Cfi` only shows that `CFI_QRY` is the packed "QRY" string expected at query address 0x10.
