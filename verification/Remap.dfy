/**
 Alternate-function remapping: descriptors that encode a field of AFIO_MAPR and the value to put
 there, interpreted by one function, and the four registers that route a port to an interrupt line
 (RM0008, sections 9.4.2 to 9.4.6).
 */
module Remap {
  import opened Bits

  /** The descriptors for AFIO_MAPR. */
  datatype Remapping =
    | Spi1 | I2c1 | Usart1 | Usart2 | PartialUsart3 | FullUsart3 | PartialTim1 | FullTim1
    | Partial1Tim2 | Partial2Tim2 | FullTim2 | PartialTim3 | FullTim3 | Tim4 | Remap1Can1 | Remap2Can1 | Pd01
    | Tim5Ch4Lsi | Adc1Inj | Adc1Reg | Adc2Inj | Adc2Reg | Eth | Can2 | Spi3 | Tim2Itr1 | PtpPps
    | SwjNoJtrst | SwjJtagDisable | SwjDisable

  /** The descriptor words callers pass. */
  function Descriptor(r: Remapping): Word {
    match r
    case Spi1 => 0x0000_0001
    case I2c1 => 0x0000_0002
    case Usart1 => 0x0000_0004
    case Usart2 => 0x0000_0008
    case PartialUsart3 => 0x0014_0010
    case FullUsart3 => 0x0014_0030
    case PartialTim1 => 0x0016_0040
    case FullTim1 => 0x0016_00C0
    case Partial1Tim2 => 0x0018_0100
    case Partial2Tim2 => 0x0018_0200
    case FullTim2 => 0x0018_0300
    case PartialTim3 => 0x001A_0800
    case FullTim3 => 0x001A_0C00
    case Tim4 => 0x0000_1000
    case Remap1Can1 => 0x001D_4000
    case Remap2Can1 => 0x001D_6000
    case Pd01 => 0x0000_8000
    case Tim5Ch4Lsi => 0x0020_0001
    case Adc1Inj => 0x0020_0002
    case Adc1Reg => 0x0020_0004
    case Adc2Inj => 0x0020_0008
    case Adc2Reg => 0x0020_0010
    case Eth => 0x0020_0020
    case Can2 => 0x0020_0040
    case Spi3 => 0x0020_1100
    case Tim2Itr1 => 0x0020_2000
    case PtpPps => 0x0020_4000
    case SwjNoJtrst => 0x0030_0100
    case SwjJtagDisable => 0x0030_0200
    case SwjDisable => 0x0030_0400
  }

  /** The field of AFIO_MAPR, by the register map. */
  function Field(r: Remapping): Word {
    match r
    case Spi1 => 0x0000_0001
    case I2c1 => 0x0000_0002
    case Usart1 => 0x0000_0004
    case Usart2 => 0x0000_0008
    case PartialUsart3 => 0x0000_0030
    case FullUsart3 => 0x0000_0030
    case PartialTim1 => 0x0000_00C0
    case FullTim1 => 0x0000_00C0
    case Partial1Tim2 => 0x0000_0300
    case Partial2Tim2 => 0x0000_0300
    case FullTim2 => 0x0000_0300
    case PartialTim3 => 0x0000_0C00
    case FullTim3 => 0x0000_0C00
    case Tim4 => 0x0000_1000
    case Remap1Can1 => 0x0000_6000
    case Remap2Can1 => 0x0000_6000
    case Pd01 => 0x0000_8000
    case Tim5Ch4Lsi => 0x0001_0000
    case Adc1Inj => 0x0002_0000
    case Adc1Reg => 0x0004_0000
    case Adc2Inj => 0x0008_0000
    case Adc2Reg => 0x0010_0000
    case Eth => 0x0020_0000
    case Can2 => 0x0040_0000
    case Spi3 => 0x1000_0000
    case Tim2Itr1 => 0x2000_0000
    case PtpPps => 0x4000_0000
    case SwjNoJtrst => SWJ
    case SwjJtagDisable => SWJ
    case SwjDisable => SWJ
  }

  /** The debug port field, and the reserved bit above it which the driver treats with it. */
  const SWJ: Word := 0x0700_0000
  const DEBUG: Word := 0x0F00_0000

  /** What the field must hold for the remapping, by the register map. */
  function Value(r: Remapping): Word {
    match r
    case Spi1 => 0x0000_0001
    case I2c1 => 0x0000_0002
    case Usart1 => 0x0000_0004
    case Usart2 => 0x0000_0008
    case PartialUsart3 => 0x0000_0010
    case FullUsart3 => 0x0000_0030
    case PartialTim1 => 0x0000_0040
    case FullTim1 => 0x0000_00C0
    case Partial1Tim2 => 0x0000_0100
    case Partial2Tim2 => 0x0000_0200
    case FullTim2 => 0x0000_0300
    case PartialTim3 => 0x0000_0800
    case FullTim3 => 0x0000_0C00
    case Tim4 => 0x0000_1000
    case Remap1Can1 => 0x0000_4000
    case Remap2Can1 => 0x0000_6000
    case Pd01 => 0x0000_8000
    case Tim5Ch4Lsi => 0x0001_0000
    case Adc1Inj => 0x0002_0000
    case Adc1Reg => 0x0004_0000
    case Adc2Inj => 0x0008_0000
    case Adc2Reg => 0x0010_0000
    case Eth => 0x0020_0000
    case Can2 => 0x0040_0000
    case Spi3 => 0x1000_0000
    case Tim2Itr1 => 0x2000_0000
    case PtpPps => 0x4000_0000
    case SwjNoJtrst => 0x0100_0000
    case SwjJtagDisable => 0x0200_0000
    case SwjDisable => 0x0400_0000
  }

  predicate IsDebug(r: Remapping) { r.SwjNoJtrst? || r.SwjJtagDisable? || r.SwjDisable? }

  predicate InDebug(j: Word) { 24 <= j < 28 }

  // ---------- the hardware ----------

  /** MAPR without its write-only debug field, and the debug port configuration last accepted. */
  datatype Registers = Registers(mapr: Word, swj: Word)

  /** 000, 001, 010 and 100 configure the debug port; other codes have no effect. */
  predicate Accepted(code: Word) { code == 0 || code == 1 || code == 2 || code == 4 }

  function Code(w: Word): Word { (w >> 24) & 7 }

  function Write(r: Registers, w: Word): Registers {
    Registers(w, if Accepted(Code(w)) then Code(w) else r.swj)
  }

  /** Reading MAPR: the debug bits are undefined. */
  function Read(r: Registers, junk: Word): Word { Raised(Cleared(r.mapr, DEBUG), Masked(junk, DEBUG)) }

  // ---------- what a call does ----------

  /**
   The field of the remapping holds its value, or zero after a disabling call; every other bit outside the
   debug field is as before; the debug port changes only if it is what is remapped.
   */
  ghost predicate Configured(r: Registers, what: Remapping, enable: bool, r': Registers) {
    && (forall j: Word :: j < 32 && !InDebug(j) ==>
         Bit(r'.mapr, j) == if Bit(Field(what), j) then enable && Bit(Value(what), j) else Bit(r.mapr, j))
    && r'.swj == if !IsDebug(what) then r.swj else if enable then Code(Value(what)) else 0
  }

  function Position(d: Word): Word { (d & 0x000F_0000) >> 16 }

  function Shift(d: Word): (s: Word) { (d >> 21) * 16 }

  predicate Location(d: Word) { d & 0x0020_0000 != 0 }

  predicate NumBits(d: Word) { d & 0x0010_0000 != 0 }

  /** The bits a descriptor clears, and those it sets, moved to the upper half where it says so. */
  function Low(d: Word): Word
    requires Shift(d) <= 16
  {
    (d & 0xFFFF) << Shift(d)
  }

  function ClearMask(d: Word): Word
    requires Shift(d) <= 16
  {
    if NumBits(d) then 3 << Position(d) else Low(d)
  }

  /** Which branch a descriptor takes, and that its shifts are defined. */
  lemma DescriptorShape(r: Remapping)
    ensures var d := Descriptor(r); Shift(d) <= 16 && Position(d) < 16 && (IsDebug(r) <==> Location(d) && NumBits(d))
  {
    match r
    case Spi1 => case I2c1 => case Usart1 => case Usart2 => case PartialUsart3 => case FullUsart3 => case PartialTim1 =>
    case FullTim1 => case Partial1Tim2 => case Partial2Tim2 => case FullTim2 => case PartialTim3 => case FullTim3 =>
    case Tim4 => case Remap1Can1 => case Remap2Can1 => case Pd01 => case Tim5Ch4Lsi => case Adc1Inj => case Adc1Reg =>
    case Adc2Inj => case Adc2Reg => case Eth => case Can2 => case Spi3 => case Tim2Itr1 => case PtpPps =>
    case SwjNoJtrst => case SwjJtagDisable => case SwjDisable =>
  }

  /** Outside the debug field, what the driver clears is the field of the register map. */
  lemma DescriptorClears(r: Remapping)
    requires !IsDebug(r) && Shift(Descriptor(r)) <= 16
    ensures Masked(ClearMask(Descriptor(r)), Others(DEBUG)) == Field(r)
  {
    match r
    case Spi1 => case I2c1 => case Usart1 => case Usart2 => case PartialUsart3 => case FullUsart3 => case PartialTim1 =>
    case FullTim1 => case Partial1Tim2 => case Partial2Tim2 => case FullTim2 => case PartialTim3 => case FullTim3 =>
    case Tim4 => case Remap1Can1 => case Remap2Can1 => case Pd01 => case Tim5Ch4Lsi => case Adc1Inj => case Adc1Reg =>
    case Adc2Inj => case Adc2Reg => case Eth => case Can2 => case Spi3 => case Tim2Itr1 => case PtpPps =>
  }

  /** What it sets is the value. */
  lemma DescriptorSets(r: Remapping)
    requires Shift(Descriptor(r)) <= 16
    ensures if IsDebug(r) then Low(Descriptor(r)) == Value(r) else Masked(Low(Descriptor(r)), Others(DEBUG)) == Value(r)
  {
    match r
    case Spi1 => case I2c1 => case Usart1 => case Usart2 => case PartialUsart3 => case FullUsart3 => case PartialTim1 =>
    case FullTim1 => case Partial1Tim2 => case Partial2Tim2 => case FullTim2 => case PartialTim3 => case FullTim3 =>
    case Tim4 => case Remap1Can1 => case Remap2Can1 => case Pd01 => case Tim5Ch4Lsi => case Adc1Inj => case Adc1Reg =>
    case Adc2Inj => case Adc2Reg => case Eth => case Can2 => case Spi3 => case Tim2Itr1 => case PtpPps =>
    case SwjNoJtrst => case SwjJtagDisable => case SwjDisable =>
  }

  lemma DebugAt(j: Word)
    requires j < 32
    ensures Bit(DEBUG, j) == InDebug(j)
  {
  }

  /** Outside the debug field. */
  lemma OutsideAt(w: Word, v: Word, j: Word)
    requires j < 32 && !InDebug(j) && Masked(w, Others(DEBUG)) == v
    ensures Bit(w, j) == Bit(v, j)
  {
    MaskedAt(w, Others(DEBUG), j);
    OthersAt(DEBUG, j);
    DebugAt(j);
    hide Bit, Masked, Others;
  }

  lemma ReadAt(r: Registers, junk: Word, j: Word)
    requires j < 32 && !InDebug(j)
    ensures Bit(Read(r, junk), j) == Bit(r.mapr, j)
  {
    hide Bit, Masked, Raised, Cleared, InDebug;
    RaisedAt(Cleared(r.mapr, DEBUG), Masked(junk, DEBUG), j);
    ClearedAt(r.mapr, DEBUG, j);
    MaskedAt(junk, DEBUG, j);
    DebugAt(j);
  }

  /** The word written for a descriptor outside the debug port: all ones there, which has no effect. */
  function Plainly(seen: Word, clear: Word, bits: Word, enable: bool): Word {
    var w := Raised(Cleared(seen, clear), DEBUG);
    if enable then Raised(w, bits) else w
  }

  lemma PlainlyAt(seen: Word, clear: Word, bits: Word, enable: bool, j: Word)
    requires j < 32 && !InDebug(j)
    ensures Bit(Plainly(seen, clear, bits, enable), j) == ((Bit(seen, j) && !Bit(clear, j)) || (enable && Bit(bits, j)))
  {
    DebugAt(j);
    hide Bit, Raised, Cleared, InDebug;
    var w := Cleared(seen, clear);
    ClearedAt(seen, clear, j);
    RaisedAt(w, DEBUG, j);
    RaisedAt(Raised(w, DEBUG), bits, j);
  }

  lemma ValueWithin(r: Remapping)
    ensures Masked(Value(r), Field(r)) == Value(r)
  {
    match r
    case Spi1 => case I2c1 => case Usart1 => case Usart2 => case PartialUsart3 => case FullUsart3 => case PartialTim1 =>
    case FullTim1 => case Partial1Tim2 => case Partial2Tim2 => case FullTim2 => case PartialTim3 => case FullTim3 =>
    case Tim4 => case Remap1Can1 => case Remap2Can1 => case Pd01 => case Tim5Ch4Lsi => case Adc1Inj => case Adc1Reg =>
    case Adc2Inj => case Adc2Reg => case Eth => case Can2 => case Spi3 => case Tim2Itr1 => case PtpPps =>
    case SwjNoJtrst => case SwjJtagDisable => case SwjDisable =>
  }

  lemma ValueInField(r: Remapping, j: Word)
    requires j < 32
    ensures Bit(Value(r), j) ==> Bit(Field(r), j)
  {
    ValueWithin(r);
    MaskedAt(Value(r), Field(r), j);
    hide Bit, Masked, Value, Field;
  }

  /** Every bit outside the debug field after a call for another field. */
  lemma PlainCallAt(r: Registers, junk: Word, what: Remapping, enable: bool, j: Word)
    requires !IsDebug(what) && j < 32 && !InDebug(j) && Shift(Descriptor(what)) <= 16
    ensures var d := Descriptor(what);
      Bit(Plainly(Read(r, junk), ClearMask(d), Low(d), enable), j) ==
      if Bit(Field(what), j) then enable && Bit(Value(what), j) else Bit(r.mapr, j)
  {
    hide *;
    var d, seen := Descriptor(what), Read(r, junk);
    DescriptorClears(what);
    DescriptorSets(what);
    ValueInField(what, j);
    OutsideAt(ClearMask(d), Field(what), j);
    OutsideAt(Low(d), Value(what), j);
    ReadAt(r, junk, j);
    PlainlyAt(seen, ClearMask(d), Low(d), enable, j);
  }

  lemma PlainKeepsDebug(seen: Word, clear: Word, bits: Word, enable: bool)
    ensures Code(Plainly(seen, clear, bits, enable)) == 7
  {
  }

  /** A call for a field outside the debug port. */
  lemma PlainCall(r: Registers, junk: Word, what: Remapping, enable: bool)
    requires !IsDebug(what) && Shift(Descriptor(what)) <= 16
    ensures var d := Descriptor(what);
      Configured(r, what, enable, Write(r, Plainly(Read(r, junk), ClearMask(d), Low(d), enable)))
  {
    var d := Descriptor(what);
    PlainKeepsDebug(Read(r, junk), ClearMask(d), Low(d), enable);
    hide Bit, Plainly, Low, ClearMask, Field, Value, Descriptor, Read, InDebug, IsDebug, Code;
    forall j: Word | j < 32 && !InDebug(j)
      ensures Bit(Plainly(Read(r, junk), ClearMask(d), Low(d), enable), j) ==
              if Bit(Field(what), j) then enable && Bit(Value(what), j) else Bit(r.mapr, j)
    {
      PlainCallAt(r, junk, what, enable, j);
    }
  }

  /** The word written for the debug port. */
  function Debugly(seen: Word, bits: Word, enable: bool): Word {
    var w := Cleared(seen, DEBUG);
    if enable then Raised(w, bits) else w
  }

  lemma DebuglyAt(r: Registers, junk: Word, what: Remapping, enable: bool, j: Word)
    requires IsDebug(what) && j < 32 && !InDebug(j)
    ensures Bit(Debugly(Read(r, junk), Value(what), enable), j) == Bit(r.mapr, j) && !Bit(Field(what), j)
  {
    assert Masked(SWJ, DEBUG) == SWJ && Field(what) == SWJ;
    MaskedAt(SWJ, DEBUG, j);
    ValueInField(what, j);
    ReadAt(r, junk, j);
    DebugAt(j);
    hide Bit, Raised, Cleared, InDebug, Read, Value, Field, Masked;
    ClearedAt(Read(r, junk), DEBUG, j);
    RaisedAt(Cleared(Read(r, junk), DEBUG), Value(what), j);
  }

  lemma DebuglyCode(seen: Word, bits: Word, enable: bool)
    ensures Code(Debugly(seen, bits, enable)) == (if enable then Code(bits) else 0)
  {
  }

  lemma DebugValues(what: Remapping)
    requires IsDebug(what)
    ensures Accepted(Code(Value(what))) && Accepted(0)
  {
    match what
    case SwjNoJtrst => assert Code(0x0100_0000) == 1;
    case SwjJtagDisable => assert Code(0x0200_0000) == 2;
    case SwjDisable => assert Code(0x0400_0000) == 4;
  }

  lemma DebugCall(r: Registers, before: Registers, junk: Word, what: Remapping, enable: bool)
    requires IsDebug(what)
    ensures Configured(r, what, enable, Write(before, Debugly(Read(r, junk), Value(what), enable)))
  {
    hide Bit, Debugly, Field, Value, Read, InDebug, IsDebug, Code, Accepted;
    DebuglyCode(Read(r, junk), Value(what), enable);
    DebugValues(what);
    forall j: Word | j < 32 && !InDebug(j)
      ensures Bit(Debugly(Read(r, junk), Value(what), enable), j) == Bit(r.mapr, j) && !Bit(Field(what), j)
    {
      DebuglyAt(r, junk, what, enable, j);
    }
  }

  // ---------- runs ----------

  /** The field a bit belongs to. */
  function Owner(j: Word): Word
    requires j < 32
  {
    if 4 <= j < 6 then 0x30 else if 6 <= j < 8 then 0xC0 else if 8 <= j < 10 then 0x300 else if 10 <= j < 12 then 0xC00
    else if 13 <= j < 15 then 0x6000 else if InDebug(j) then SWJ else OneHot(j)
  }

  lemma Owned(r: Remapping, j: Word)
    requires j < 32 && Bit(Field(r), j)
    ensures Owner(j) == Field(r)
  {
    match r
    case Spi1 => case I2c1 => case Usart1 => case Usart2 => case PartialUsart3 => case FullUsart3 => case PartialTim1 =>
    case FullTim1 => case Partial1Tim2 => case Partial2Tim2 => case FullTim2 => case PartialTim3 => case FullTim3 =>
    case Tim4 => case Remap1Can1 => case Remap2Can1 => case Pd01 => case Tim5Ch4Lsi => case Adc1Inj => case Adc1Reg =>
    case Adc2Inj => case Adc2Reg => case Eth => case Can2 => case Spi3 => case Tim2Itr1 => case PtpPps =>
    case SwjNoJtrst => case SwjJtagDisable => case SwjDisable =>
  }

  /** Two remappings that share a bit are remappings of the same field. */
  lemma FieldsApart(r: Remapping, s: Remapping, j: Word)
    requires j < 32 && Bit(Field(r), j) && Bit(Field(s), j)
    ensures Field(r) == Field(s)
  {
    hide Bit, Field, Owner;
    Owned(r, j);
    Owned(s, j);
  }

  datatype Call = Call(what: Remapping, enable: bool)

  /** States linked by calls. */
  ghost predicate Run(states: seq<Registers>, calls: seq<Call>) {
    && |states| == |calls| + 1
    && forall i :: 0 <= i < |calls| ==> Configured(states[i], calls[i].what, calls[i].enable, states[i + 1])
  }

  /** After any run, every bit of a field is what the last call for that field asked for. */
  lemma {:induction false} LastCallWins(states: seq<Registers>, calls: seq<Call>, i: nat, j: Word)
    requires Run(states, calls) && i < |calls| && j < 32 && !InDebug(j) && Bit(Field(calls[i].what), j)
    requires forall k :: i < k < |calls| ==> Field(calls[k].what) != Field(calls[i].what)
    ensures Bit(states[|calls|].mapr, j) == (calls[i].enable && Bit(Value(calls[i].what), j))
    decreases |calls|
  {
    hide Bit, Field, Value, InDebug;
    var n := |calls| - 1;
    assert Configured(states[n], calls[n].what, calls[n].enable, states[n + 1]);
    if i < n {
      LastCallWins(states[..n + 1], calls[..n], i, j);
      if Bit(Field(calls[n].what), j) {
        FieldsApart(calls[n].what, calls[i].what, j);
        assert false;
      }
    }
  }

  /** And the debug port is as the last call for it asked, however many other fields were remapped since. */
  lemma {:induction false} DebugPortStays(states: seq<Registers>, calls: seq<Call>, i: nat)
    requires Run(states, calls) && i < |calls| && IsDebug(calls[i].what)
    requires forall k :: i < k < |calls| ==> !IsDebug(calls[k].what)
    ensures states[|calls|].swj == if calls[i].enable then Code(Value(calls[i].what)) else 0
    decreases |calls|
  {
    hide Bit, Field, Value, InDebug, Code;
    var n := |calls| - 1;
    assert Configured(states[n], calls[n].what, calls[n].enable, states[n + 1]);
    if i < n {
      DebugPortStays(states[..n + 1], calls[..n], i);
    }
  }

  /**
   The comment on the SPI3 descriptor says that remapping SPI3 also selects the debug port without JTRST.
   The driver writes all ones there, so that is what the port is afterwards exactly when it was so before.
   */
  lemma Spi3LeavesDebugPort(r: Registers, enable: bool, r': Registers)
    requires Configured(r, Spi3, enable, r')
    ensures r'.swj == Code(Value(SwjNoJtrst)) <==> r.swj == Code(Value(SwjNoJtrst))
  {
  }

  /** From reset, remapping SPI3 sets its bit and leaves the debug port with JTRST. */
  lemma Spi3AtReset(r': Registers)
    requires Configured(Registers(0, 0), Spi3, true, r')
    ensures Bit(r'.mapr, 28) && r'.swj == 0 != Code(Value(SwjNoJtrst))
  {
    assert Bit(Field(Spi3), 28) && Bit(Value(Spi3), 28) && !InDebug(28);
    assert Code(0x0100_0000) == 1;
  }

  // ---------- interrupt line routing ----------

  /** The register of a line and the line's place in it. */
  function Row(line: Word): (r: nat)
    requires line < 16
    ensures r < 4
  {
    (line >> 2) as nat
  }

  function Place(line: Word): (p: Word)
    ensures p < 4
  {
    line & 3
  }

  /** Four lines a register, in order. */
  lemma LineIs(line: Word)
    requires line < 16
    ensures line as nat == 4 * Row(line) + Place(line) as nat
  {
    match line {
      case 0 => case 1 => case 2 => case 3 => case 4 => case 5 => case 6 => case 7 =>
      case 8 => case 9 => case 10 => case 11 => case 12 => case 13 => case 14 => case _ =>
    }
  }

  function Nibble(w: Word, q: Word): Word
    requires q < 4
  {
    (w >> (0x04 * q)) & 0xF
  }

  function WithNibble(w: Word, q: Word, v: Word): Word
    requires q < 4
  {
    Raised(Cleared(w, 0xF << (0x04 * q)), v << (0x04 * q))
  }

  lemma NibbleAt(w: Word, q: Word, v: Word, p: Word)
    requires q < 4 && p < 4 && v <= 0xF
    ensures Nibble(WithNibble(w, q, v), p) == if p == q then v else Nibble(w, p)
  {
  }

  lemma UpperStays(w: Word, q: Word, v: Word)
    requires q < 4 && v <= 0xF
    ensures WithNibble(w, q, v) & 0xFFFF_0000 == w & 0xFFFF_0000
  {
  }

  /**
   The register's four lines are those of `old_`, except that the one with the number `line`, counted from
   `first` on, is routed to the port. Line `first` is in bits 0 to 3, the next in bits 4 to 7, and so on.
   */
  predicate Routed(w: Word, old_: Word, first: nat, line: nat, port: Word) {
    && w & 0xF == (if line == first then port else old_ & 0xF)
    && (w >> 4) & 0xF == (if line == first + 1 then port else (old_ >> 4) & 0xF)
    && (w >> 8) & 0xF == (if line == first + 2 then port else (old_ >> 8) & 0xF)
    && (w >> 12) & 0xF == (if line == first + 3 then port else (old_ >> 12) & 0xF)
    && w & 0xFFFF_0000 == old_ & 0xFFFF_0000
  }

  lemma Nibbles(w: Word)
    ensures Nibble(w, 0) == w & 0xF && Nibble(w, 1) == (w >> 4) & 0xF
    ensures Nibble(w, 2) == (w >> 8) & 0xF && Nibble(w, 3) == (w >> 12) & 0xF
  {
  }

  lemma PlaceIs(q: Word)
    requires q < 4
    ensures if q == 0 then q as nat == 0 else if q == 1 then q as nat == 1 else if q == 2 then q as nat == 2 else q == 3 && q as nat == 3
  {
  }

  /** Writing a line's nibble routes that line and no other. */
  lemma RouteOne(w: Word, line: Word, port: Word)
    requires line < 16 && port <= 6
    ensures Routed(WithNibble(w, Place(line), port), w, 4 * Row(line), line as nat, port)
  {
    var q := Place(line);
    LineIs(line);
    PlaceIs(q);
    UpperStays(w, q, port);
    Nibbles(w);
    Nibbles(WithNibble(w, q, port));
    NibbleAt(w, q, port, 0);
    NibbleAt(w, q, port, 1);
    NibbleAt(w, q, port, 2);
    NibbleAt(w, q, port, 3);
    hide Nibble, WithNibble, Row, Place;
  }

  /** The other registers hold other lines. */
  lemma RouteNone(w: Word, line: Word, port: Word, i: nat)
    requires line < 16 && i < 4 && i != Row(line)
    ensures Routed(w, w, 4 * i, line as nat, port)
  {
    LineIs(line);
    PlaceIs(Place(line));
    hide Row, Place;
  }

  class Afio {
    var regs: Registers
    const exticr: array<Word>

    /** Reset: nothing remapped, full debug port, every line routed to port A. */
    constructor ()
      ensures exticr.Length == 4 && fresh(exticr) && regs == Registers(0, 0)
      ensures forall i :: 0 <= i < 4 ==> exticr[i] == 0
    {
      regs := Registers(0, 0);
      exticr := new Word[4](_ => 0);
    }

    /** `junk` and `junk'` are what the two reads of MAPR show in its debug bits. */
    method PinRemapConfig(what: Remapping, enable: bool, junk: Word, junk': Word)
      modifies `regs
      ensures Configured(old(regs), what, enable, regs)
    {
      hide Bit, Raised, Cleared, Masked, Others, Low, Position, Shift, NumBits, Location, Field, Value, Descriptor, Read, Write, Configured,
        IsDebug, InDebug, Code, Accepted;
      var remap := Descriptor(what);
      DescriptorShape(what);
      var tmpreg := Read(regs, junk);
      ghost var seen := tmpreg;
      var tmp := Low(remap);
      if Location(remap) && NumBits(remap) {
        tmpreg := Cleared(tmpreg, DEBUG);
        regs := Write(regs, Cleared(Read(regs, junk'), DEBUG));
        DescriptorSets(what);
        DebugCall(old(regs), regs, junk, what, enable);
      } else {
        if NumBits(remap) {
          tmpreg := Cleared(tmpreg, 3 << Position(remap));
        } else {
          tmpreg := Cleared(tmpreg, tmp);
        }
        tmpreg := Raised(tmpreg, DEBUG);
        PlainCall(regs, junk, what, enable);
        assert tmpreg == Raised(Cleared(seen, ClearMask(remap)), DEBUG);
      }
      if enable {
        tmpreg := Raised(tmpreg, tmp);
      }
      regs := Write(regs, tmpreg);
    }

    /** Routes one line and no other: lines 4i to 4i + 3 are in register i. */
    method ExtiLineConfig(port: Word, line: Word)
      requires exticr.Length == 4 && port <= 6 && line < 16
      modifies exticr
      ensures forall i: nat :: i < 4 ==> Routed(exticr[i], old(exticr[i]), 4 * i, line as nat, port)
    {
      hide Row, Place, Raised, Cleared, Routed;
      ghost var before := exticr[..];
      var i, q := Row(line), Place(line);
      var tmp := 0xF << (0x04 * q);
      exticr[i] := Cleared(exticr[i], tmp);
      exticr[i] := Raised(exticr[i], port << (0x04 * q));
      assert exticr[i] == WithNibble(before[i], q, port);
      hide WithNibble;
      RouteOne(before[i], line, port);
      forall k: nat | k < 4
        ensures Routed(exticr[k], before[k], 4 * k, line as nat, port)
      {
        if k != i {
          RouteNone(before[k], line, port, k);
        }
      }
    }
  }
}
