/**
 * The Common Flash Interface (CFI) signature. The Common Flash Interface
 * (JEDEC JESD68) places the query identification string, the three ASCII
 * bytes 'Q', 'R', 'Y', at CFI addresses 10h..12h, followed at 13h by the
 * primary vendor command set identifier. The header defines the signature
 * as one 32-bit constant, CFI_QRY, beside the query address 10h.
 */
module Cfi {
  import opened MachineWords

  /** The query identification string "QRY". */
  const QryString: seq<bv8> := [0x51, 0x52, 0x59]

  /** P30_CFI_ADDR_QUERY_UNIQUE_QRY: the CFI address of the signature. */
  function P30CfiAddrQueryUniqueQry(): (a: Uintn)
    ensures a == 0x10
  {
    0x10
  }

  /**
   * P30_CFI_ADDR_VENDOR_ID: the CFI address of the vendor identifier, just
   * past the three signature bytes.
   */
  function P30CfiAddrVendorId(): (a: Uintn)
    ensures a == 0x13
    ensures a == P30CfiAddrQueryUniqueQry() + |QryString|
  {
    0x13
  }

  /** CFI_QRY: the signature as one 32-bit word (see CfiQryIsQryString). */
  function CfiQry(): (w: bv32)
    ensures w == 0x00595251
  {
    0x00595251
  }

  /** The three bytes are the ASCII codes of 'Q', 'R' and 'Y'. */
  lemma QryStringIsAscii()
    ensures |QryString| == |"QRY"|
    ensures forall i :: 0 <= i < |QryString| ==> QryString[i] as int == "QRY"[i] as int
  {
  }

  /** Byte i of a 32-bit word, counting from the least significant byte. */
  function ByteAt(w: bv32, i: nat): bv8
    requires i < 4
  {
    if i == 0 then (w & 0xFF) as bv8
    else if i == 1 then ((w >> 8) & 0xFF) as bv8
    else if i == 2 then ((w >> 16) & 0xFF) as bv8
    else (w >> 24) as bv8
  }

  /** At most four bytes packed little-endian into a word; missing high bytes are zero. */
  function PackLittleEndian(bytes: seq<bv8>): (w: bv32)
    requires |bytes| <= 4
  {
    if |bytes| == 0 then 0
    else (bytes[0] as bv32) | (PackLittleEndian(bytes[1..]) << 8)
  }

  /** The four bytes of a word, least significant first. */
  function UnpackLittleEndian(w: bv32): (bytes: seq<bv8>)
  {
    [ByteAt(w, 0), ByteAt(w, 1), ByteAt(w, 2), ByteAt(w, 3)]
  }

  /** Byte i of a packed word is the i-th byte packed, or zero past the end. */
  lemma {:induction false} PackedByte(bytes: seq<bv8>, i: nat)
    requires |bytes| <= 4 && i < 4
    ensures ByteAt(PackLittleEndian(bytes), i) == if i < |bytes| then bytes[i] else 0
  {
    if |bytes| == 0 {
    } else if i == 0 {
    } else {
      PackedByte(bytes[1..], i - 1);
      ShiftedByte(PackLittleEndian(bytes[1..]), bytes[0], i - 1);
    }
  }

  /** Packing a byte below a shifted word moves every byte of the word up by one place. */
  lemma ShiftedByte(w: bv32, b: bv8, i: nat)
    requires i < 3
    ensures ByteAt((b as bv32) | (w << 8), i + 1) == ByteAt(w, i)
  {
  }

  /** Unpacking undoes packing of four bytes. */
  lemma UnpackPack(bytes: seq<bv8>)
    requires |bytes| == 4
    ensures UnpackLittleEndian(PackLittleEndian(bytes)) == bytes
  {
    PackedByte(bytes, 0);
    PackedByte(bytes, 1);
    PackedByte(bytes, 2);
    PackedByte(bytes, 3);
  }

  /** A word is determined by its four bytes. */
  lemma BytesDetermineWord(a: bv32, b: bv32)
    requires ByteAt(a, 0) == ByteAt(b, 0) && ByteAt(a, 1) == ByteAt(b, 1)
    requires ByteAt(a, 2) == ByteAt(b, 2) && ByteAt(a, 3) == ByteAt(b, 3)
    ensures a == b
  {
  }

  /** Packing undoes unpacking. */
  lemma PackUnpack(w: bv32)
    ensures PackLittleEndian(UnpackLittleEndian(w)) == w
  {
    var bytes := UnpackLittleEndian(w);
    PackedByte(bytes, 0);
    PackedByte(bytes, 1);
    PackedByte(bytes, 2);
    PackedByte(bytes, 3);
    BytesDetermineWord(PackLittleEndian(bytes), w);
  }

  /**
   * CFI_QRY is "QRY" packed little-endian with a zero top byte, so its bytes
   * are those the device returns at CFI addresses 10h, 11h and 12h.
   */
  lemma CfiQryIsQryString()
    ensures UnpackLittleEndian(CfiQry()) == QryString + [0]
    ensures CfiQry() == PackLittleEndian(QryString)
  {
    assert ByteAt(CfiQry(), 0) == 0x51;
    assert ByteAt(CfiQry(), 1) == 0x52;
    assert ByteAt(CfiQry(), 2) == 0x59;
    assert ByteAt(CfiQry(), 3) == 0;
    PackedByte(QryString, 0);
    PackedByte(QryString, 1);
    PackedByte(QryString, 2);
    PackedByte(QryString, 3);
    BytesDetermineWord(PackLittleEndian(QryString), CfiQry());
  }
}
