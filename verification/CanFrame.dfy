/**
 The two mailbox layouts of the bxCAN cell: how `CAN_Transmit` packs a message into
 the four registers of a transmit mailbox and how `CAN_Receive` takes the four
 registers of a FIFO output mailbox apart again.
 */
module CanFrame {
  import opened Bits

  const ID_STANDARD: bv8 := 0
  const ID_EXTENDED: bv8 := 4
  const RTR_REMOTE: bv8 := 2
  const TXRQ: Word := 1

  /** What the caller of `CAN_Transmit` fills in. */
  datatype TxMessage = TxMessage(stdId: Word, extId: Word, ide: bv8, rtr: bv8, dlc: bv8, data: seq<bv8>) {
    /** The driver's own parameter checks; the data array has eight bytes. */
    predicate Valid() {
      && (ide == ID_STANDARD || ide == ID_EXTENDED)
      && (rtr == 0 || rtr == RTR_REMOTE)
      && (ide == ID_STANDARD ==> stdId <= 0x7FF)
      && (ide == ID_EXTENDED ==> extId <= 0x1FFF_FFFF)
      && |data| == 8
    }
  }

  /** What `CAN_Receive` fills in. */
  datatype RxMessage = RxMessage(stdId: Word, extId: Word, ide: bv8, rtr: bv8, dlc: bv8, fmi: bv8, data: seq<bv8>)

  /** Identifier, length/time and the two data registers of one mailbox. */
  datatype Mailbox = Mailbox(ir: Word, dtr: Word, dlr: Word, dhr: Word)

  /** A CAN frame, free of any register layout. */
  datatype Frame = Frame(extended: bool, id: Word, remote: bool, dlc: bv8, data: seq<bv8>)

  /** The frame a caller asks for; only the four low bits of the length count. */
  function Requested(m: TxMessage): Frame {
    Frame(m.ide == ID_EXTENDED, if m.ide == ID_EXTENDED then m.extId else m.stdId,
          m.rtr == RTR_REMOTE, m.dlc & 0x0F, m.data)
  }

  /** The frame a received message describes; only the active identifier counts. */
  function Described(m: RxMessage): Frame {
    Frame(m.ide == ID_EXTENDED, if m.ide == ID_EXTENDED then m.extId else m.stdId,
          m.rtr == RTR_REMOTE, m.dlc, m.data)
  }

  function Byte(w: Word, shift: Word): bv8
    requires shift < 32
  {
    ((w >> shift) & 0xFF) as bv8
  }

  function FourBytes(b0: bv8, b1: bv8, b2: bv8, b3: bv8): Word {
    (b3 as Word << 24) | (b2 as Word << 16) | (b1 as Word << 8) | b0 as Word
  }

  function DataBytes(b: Mailbox): seq<bv8> {
    [Byte(b.dlr, 0), Byte(b.dlr, 8), Byte(b.dlr, 16), Byte(b.dlr, 24),
     Byte(b.dhr, 0), Byte(b.dhr, 8), Byte(b.dhr, 16), Byte(b.dhr, 24)]
  }

  predicate IsExtended(ir: Word) { ir & 4 == 4 }

  predicate IsRemote(ir: Word) { ir & 2 == 2 }

  function Identifier(ir: Word): Word {
    if IsExtended(ir) then ExtendedId(ir) else StandardId(ir)
  }

  function ExtendedId(ir: Word): Word { ir >> 3 }

  function StandardId(ir: Word): Word { ir >> 21 }

  function Length(dtr: Word): bv8 { (dtr & 0x0F) as bv8 }

  /** The frame the bus sees in a mailbox, by the register map of the reference manual (RM0008, section 24.9.3). */
  function Decode(b: Mailbox): Frame {
    Frame(IsExtended(b.ir), Identifier(b.ir), IsRemote(b.ir), Length(b.dtr), DataBytes(b))
  }

  /** The identifier bits `CAN_Transmit` ors into a cleared identifier register. */
  function IdentifierWord(m: TxMessage): Word {
    if m.ide == ID_STANDARD then (m.stdId << 21) | m.rtr as Word
    else (m.extId << 3) | m.ide as Word | m.rtr as Word
  }

  /** Packing loses nothing: whatever the mailbox held, it decodes to the caller's frame, request bit or not. */
  lemma PackedDecodes(m: TxMessage, b: Mailbox, dtr: Word)
    requires m.Valid()
    requires b.ir == IdentifierWord(m) || b.ir == IdentifierWord(m) | TXRQ
    requires b.dtr == (dtr & 0xFFFF_FFF0) | (m.dlc & 0x0F) as Word
    requires b.dlr == FourBytes(m.data[0], m.data[1], m.data[2], m.data[3])
    requires b.dhr == FourBytes(m.data[4], m.data[5], m.data[6], m.data[7])
    ensures Decode(b) == Requested(m)
  {
    BytesBack(m.data[0], m.data[1], m.data[2], m.data[3]);
    BytesBack(m.data[4], m.data[5], m.data[6], m.data[7]);
    assert m.data == [m.data[0], m.data[1], m.data[2], m.data[3], m.data[4], m.data[5], m.data[6], m.data[7]];
  }

  lemma BytesBack(b0: bv8, b1: bv8, b2: bv8, b3: bv8)
    ensures var w := FourBytes(b0, b1, b2, b3);
      Byte(w, 0) == b0 && Byte(w, 8) == b1 && Byte(w, 16) == b2 && Byte(w, 24) == b3
  {
  }
}
