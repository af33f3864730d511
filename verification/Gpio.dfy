/**
 `GPIO_Init`: two loops over pin masks that rewrite four-bit fields of CRL and CRH in place
 and set or clear output bits through BSRR and BRR.
 */
module Gpio {
  import opened Bits

  const AIN: Word := 0x00
  const IN_FLOATING: Word := 0x04
  const IPD: Word := 0x28
  const IPU: Word := 0x48
  const OUT_OD: Word := 0x14
  const OUT_PP: Word := 0x10
  const AF_OD: Word := 0x1C
  const AF_PP: Word := 0x18

  predicate IsMode(m: Word) {
    m == AIN || m == IN_FLOATING || m == IPD || m == IPU || m == OUT_OD || m == OUT_PP || m == AF_OD || m == AF_PP
  }

  predicate IsOutput(m: Word) { m & 0x10 != 0 }

  /** What the caller asks for; the speed matters for output modes only. */
  datatype Config = Config(mode: Word, speed: Word) {
    predicate Valid() { IsMode(mode) && (IsOutput(mode) ==> 1 <= speed <= 3) }

    /** The CNF and MODE bits of a pin. */
    function Nibble(): Word {
      if IsOutput(mode) then (mode & 0x0F) | speed else mode & 0x0F
    }
  }

  datatype Registers = Registers(crl: Word, crh: Word, odr: Word)

  /** Field q of a configuration register. */
  function Field(w: Word, q: Word): Word
    requires q < 8
  {
    (w >> 4 * q) & 0xF
  }

  function WithField(w: Word, q: Word, v: Word): Word
    requires q < 8
  {
    (w & !(0xF << 4 * q)) | (v << 4 * q)
  }

  lemma FieldAt(w: Word, q: Word, v: Word, j: Word)
    requires q < 8 && j < 8 && v <= 0xF
    ensures Field(WithField(w, q, v), j) == if j == q then v else Field(w, j)
  {
  }

  /** The four configuration bits of pin p. */
  function PinField(r: Registers, p: Word): Word
    requires p < 16
  {
    if p < 8 then Field(r.crl, p) else Field(r.crh, p - 8)
  }

  /** The output bit a configuration leaves on a pin: pulls set it, other modes keep it. */
  predicate Pulled(c: Config, before: bool) {
    if c.mode == IPD then false else if c.mode == IPU then true else before
  }

  /** The per-pin meaning of one call: selected pins get the configuration, nothing else changes. */
  ghost predicate Configured(r: Registers, pins: Word, c: Config, r': Registers) {
    && (forall p: Word :: p < 16 ==>
      PinField(r', p) == if Bit(pins, p) then c.Nibble() else PinField(r, p))
    && (forall p: Word :: p < 16 ==>
      Bit(r'.odr, p) == if Bit(pins, p) then Pulled(c, Bit(r.odr, p)) else Bit(r.odr, p))
    && (forall p: Word :: 16 <= p < 32 ==> Bit(r'.odr, p) == Bit(r.odr, p))
  }

  // ---------- registers are determined by their pins ----------

  lemma BitInField(w: Word, i: Word)
    requires i < 32
    ensures Bit(w, i) == Bit(Field(w, i >> 2), i & 3)
  {
  }

  lemma FieldsExtensional(a: Word, b: Word)
    requires forall q: Word :: q < 8 ==> Field(a, q) == Field(b, q)
    ensures a == b
  {
    hide Bit, Field;
    forall i: Word | i < 32
      ensures Bit(a, i) == Bit(b, i)
    {
      BitInField(a, i);
      BitInField(b, i);
    }
    Extensional(a, b);
  }

  /** Two port states with the same configuration and output bit on every pin are the same state. */
  lemma PinsDetermine(r: Registers, s: Registers)
    requires forall p: Word :: p < 16 ==> PinField(r, p) == PinField(s, p)
    requires forall p: Word :: p < 32 ==> Bit(r.odr, p) == Bit(s.odr, p)
    ensures r == s
  {
    hide Bit, Field;
    forall q: Word | q < 8
      ensures Field(r.crl, q) == Field(s.crl, q) && Field(r.crh, q) == Field(s.crh, q)
    {
      assert PinField(r, q) == PinField(s, q) && PinField(r, q + 8) == PinField(s, q + 8);
    }
    FieldsExtensional(r.crl, s.crl);
    FieldsExtensional(r.crh, s.crh);
    Extensional(r.odr, s.odr);
  }

  // ---------- order of calls ----------

  lemma UnionBit(a: Word, b: Word, p: Word)
    requires p < 32
    ensures Bit(a | b, p) == (Bit(a, p) || Bit(b, p))
    ensures a & b == 0 ==> !(Bit(a, p) && Bit(b, p))
  {
  }

  /** Calls on disjoint pin sets, each with its own configuration, give the same port in either order. */
  lemma DisjointCallsCommute(r: Registers, a: Word, ca: Config, b: Word, cb: Config,
                             ra: Registers, rab: Registers, rb: Registers, rba: Registers)
    requires a & b == 0
    requires Configured(r, a, ca, ra) && Configured(ra, b, cb, rab)
    requires Configured(r, b, cb, rb) && Configured(rb, a, ca, rba)
    ensures rab == rba
  {
    hide Bit, PinField;
    forall p: Word | p < 16
      ensures PinField(rab, p) == PinField(rba, p) && Bit(rab.odr, p) == Bit(rba.odr, p)
    {
      UnionBit(a, b, p);
    }
    PinsDetermine(rab, rba);
  }

  /** One call on a union of disjoint pin sets is the two calls on the parts. */
  lemma UnionIsBoth(r: Registers, a: Word, b: Word, c: Config, ra: Registers, rab: Registers, r': Registers)
    requires Configured(r, a, c, ra) && Configured(ra, b, c, rab) && Configured(r, a | b, c, r')
    ensures rab == r'
  {
    hide Bit, PinField;
    forall p: Word | p < 16
      ensures PinField(rab, p) == PinField(r', p) && Bit(rab.odr, p) == Bit(r'.odr, p)
    {
      UnionBit(a, b, p);
    }
    PinsDetermine(rab, r');
  }

  /** A later call on the same pins hides the earlier one, up to the output bits it does not set. */
  lemma LaterCallWins(r: Registers, pins: Word, c: Config, d: Config, rc: Registers, rcd: Registers, rd: Registers)
    requires Configured(r, pins, c, rc) && Configured(rc, pins, d, rcd) && Configured(r, pins, d, rd)
    ensures rcd.crl == rd.crl && rcd.crh == rd.crh
    ensures d.mode == IPD || d.mode == IPU ==> rcd == rd
  {
    hide Bit, PinField, Config.Nibble;
    var x := rcd.(odr := rd.odr);
    forall p: Word | p < 16
      ensures PinField(x, p) == PinField(rd, p)
    {
      assert PinField(x, p) == PinField(rcd, p) by { SameFields(x, rcd, p); }
    }
    PinsDetermine(x, rd);
    if d.mode == IPD || d.mode == IPU {
      Extensional(rcd.odr, rd.odr);
    }
  }

  lemma SameFields(r: Registers, s: Registers, p: Word)
    requires p < 16 && r.crl == s.crl && r.crh == s.crh
    ensures PinField(r, p) == PinField(s, p)
  {
  }

  // ---------- the configuration can be read back ----------

  /** What a pin can be configured as (RM0008, table 20). */
  datatype PinMode = Analog | Floating | PullDown | PullUp | Output(openDrain: bool, speed: Word) | Alternate(openDrain: bool, speed: Word)

  /** A pin's mode from the CNF and MODE bits of its field and its output bit; the two pulls share a field. */
  function ReadBack(field: Word, odr: bool): PinMode {
    var cnf, mode := field >> 2, field & 3;
    if mode != 0 then
      if cnf == 0 then Output(false, mode) else if cnf == 1 then Output(true, mode)
      else if cnf == 2 then Alternate(false, mode) else Alternate(true, mode)
    else if cnf == 0 then Analog
    else if cnf == 1 then Floating
    else if odr then PullUp else PullDown
  }

  /** What the caller asks for. */
  function Meant(c: Config): PinMode {
    if c.mode == AIN then Analog
    else if c.mode == IN_FLOATING then Floating
    else if c.mode == IPD then PullDown
    else if c.mode == IPU then PullUp
    else if c.mode == OUT_OD then Output(true, c.speed)
    else if c.mode == OUT_PP then Output(false, c.speed)
    else if c.mode == AF_OD then Alternate(true, c.speed)
    else Alternate(false, c.speed)
  }

  /** After a call, every selected pin reads back as what was meant, with its speed if it drives the pin. */
  lemma ConfigurationReadsBack(r: Registers, pins: Word, c: Config, r': Registers, p: Word)
    requires c.Valid() && Configured(r, pins, c, r') && p < 16 && Bit(pins, p)
    ensures ReadBack(PinField(r', p), Bit(r'.odr, p)) == Meant(c)
  {
    hide Bit, PinField, ReadBack, Meant;
    NibbleReadsBack(c, Bit(r.odr, p));
  }

  lemma NibbleReadsBack(c: Config, odr: bool)
    requires c.Valid()
    ensures ReadBack(c.Nibble(), Pulled(c, odr)) == Meant(c)
  {
  }

  // ---------- the driver ----------

  /** The driver's test of a pin: `(pins & pos) == pos`. */
  predicate Selected(pins: Word, k: Word)
    requires k < 32
  {
    pins & OneHot(k) == OneHot(k)
  }

  lemma MaskTestsBit(pins: Word, k: Word)
    requires k < 32
    ensures Selected(pins, k) <==> Bit(pins, k)
  {
  }

  /** Writing ones to the reset register and to the low half of the set register. */
  function AfterBrr(odr: Word, v: Word): Word { Cleared(odr, Masked(v, 0xFFFF)) }

  function AfterBsrr(odr: Word, v: Word): Word { Raised(odr, Masked(v, 0xFFFF)) }

  /** The output register after the pull, if any, of pin k. */
  function PullBit(odr: Word, k: Word, c: Config): Word
    requires k < 16
  {
    if c.mode == IPD then AfterBrr(odr, OneHot(k)) else if c.mode == IPU then AfterBsrr(odr, OneHot(k)) else odr
  }

  lemma PullBitAt(odr: Word, k: Word, c: Config, j: Word)
    requires k < 16 && j < 32
    ensures Bit(PullBit(odr, k, c), j) == if j == k then Pulled(c, Bit(odr, j)) else Bit(odr, j)
  {
    hide Bit, OneHot, AfterBsrr, AfterBrr, SetBit, ClearBit;
    PullMasks(odr, k);
    SetBitAt(odr, k, j);
    ClearBitAt(odr, k, j);
  }

  lemma PullMasks(odr: Word, k: Word)
    requires k < 16
    ensures AfterBsrr(odr, OneHot(k)) == SetBit(odr, k) && AfterBrr(odr, OneHot(k)) == ClearBit(odr, k)
  {
    hide OneHot, SetBit, ClearBit, Masked, Raised, Cleared;
    OneHotIsLow(k);
    SetIsRaised(odr, k);
  }

  lemma SetIsRaised(odr: Word, k: Word)
    requires k < 32
    ensures SetBit(odr, k) == Raised(odr, OneHot(k)) && ClearBit(odr, k) == Cleared(odr, OneHot(k))
  {
    hide OneHot;
  }

  lemma NibbleFits(c: Config)
    requires c.Valid()
    ensures c.Nibble() <= 0xF
  {
  }

  /** The first n fields of a half are configured, the others are as in `reg`. */
  ghost predicate FieldsDone(tmpreg: Word, reg: Word, base: Word, pins: Word, c: Config, n: Word)
    requires base <= 8 && n <= 8
  {
    forall q: Word :: q < 8 ==> Field(tmpreg, q) == if q < n && Bit(pins, base + q) then c.Nibble() else Field(reg, q)
  }

  /** The pulls of the first n pins of a half are done. */
  ghost predicate PullsDone(odr: Word, before: Word, base: Word, pins: Word, c: Config, n: Word)
    requires base <= 8 && n <= 8
  {
    forall p: Word :: p < 32 ==>
      Bit(odr, p) == if base <= p < base + n && Bit(pins, p) then Pulled(c, Bit(before, p)) else Bit(before, p)
  }

  lemma NothingDone(reg: Word, odr: Word, base: Word, pins: Word, c: Config)
    requires base <= 8
    ensures FieldsDone(reg, reg, base, pins, c, 0) && PullsDone(odr, odr, base, pins, c, 0)
  {
  }

  lemma FieldStep(tmpreg: Word, reg: Word, base: Word, pins: Word, c: Config, n: Word)
    requires base <= 8 && n < 8 && c.Valid() && FieldsDone(tmpreg, reg, base, pins, c, n)
    ensures FieldsDone(if Bit(pins, base + n) then WithField(tmpreg, n, c.Nibble()) else tmpreg, reg, base, pins, c, n + 1)
  {
    hide Bit, Field, WithField, Config.Nibble, Config.Valid;
    NibbleFits(c);
    forall q: Word | q < 8
      ensures Field(WithField(tmpreg, n, c.Nibble()), q) == if q == n then c.Nibble() else Field(tmpreg, q)
    {
      FieldAt(tmpreg, n, c.Nibble(), q);
    }
  }

  lemma PullStep(odr: Word, before: Word, base: Word, pins: Word, c: Config, n: Word)
    requires base <= 8 && n < 8 && PullsDone(odr, before, base, pins, c, n)
    ensures PullsDone(if Bit(pins, base + n) then PullBit(odr, base + n, c) else odr, before, base, pins, c, n + 1)
  {
    hide Bit, PullBit;
    forall p: Word | p < 32
      ensures Bit(PullBit(odr, base + n, c), p) == if p == base + n then Pulled(c, Bit(odr, p)) else Bit(odr, p)
    {
      PullBitAt(odr, base + n, c, p);
    }
  }

  /** Both halves done is the whole call. */
  lemma HalvesConfigure(r: Registers, mid: Word, r': Registers, pins: Word, c: Config)
    requires FieldsDone(r'.crl, r.crl, 0, pins, c, 8) && FieldsDone(r'.crh, r.crh, 8, pins, c, 8)
    requires PullsDone(mid, r.odr, 0, pins, c, 8) && PullsDone(r'.odr, mid, 8, pins, c, 8)
    ensures Configured(r, pins, c, r')
  {
    hide Bit, Field, Config.Nibble, Pulled;
    forall p: Word | p < 16
      ensures PinField(r', p) == if Bit(pins, p) then c.Nibble() else PinField(r, p)
    {
      if 8 <= p {
        assert 8 + (p - 8) == p;
      }
    }
  }

  lemma OneHotIsLow(k: Word)
    requires k < 16
    ensures Masked(OneHot(k), 0xFFFF) == OneHot(k)
  {
  }

  /** A half with no selected pin needs no loop. */
  lemma NoLowPins(pins: Word, c: Config, reg: Word, odr: Word)
    requires pins & 0xFF == 0
    ensures FieldsDone(reg, reg, 0, pins, c, 8) && PullsDone(odr, odr, 0, pins, c, 8)
  {
    hide Field;
    assert forall p: Word :: p < 8 ==> !Bit(pins, p);
    hide Bit;
  }

  lemma NoHighPins(pins: Word, c: Config, reg: Word, odr: Word)
    requires pins <= 0xFF
    ensures FieldsDone(reg, reg, 8, pins, c, 8) && PullsDone(odr, odr, 8, pins, c, 8)
  {
    hide Field;
    assert forall p: Word :: 8 <= p < 16 ==> !Bit(pins, p);
    hide Bit;
  }

  lemma ResetFloats(p: Word)
    requires p < 16
    ensures ReadBack(PinField(Registers(0x4444_4444, 0x4444_4444, 0), p), Bit(0, p)) == Floating
  {
  }

  class Port {
    var crl: Word
    var crh: Word
    var odr: Word

    /** Reset: every pin a floating input. */
    constructor ()
      ensures Regs() == Registers(0x4444_4444, 0x4444_4444, 0)
      ensures forall p: Word :: p < 16 ==> ReadBack(PinField(Regs(), p), Bit(Regs().odr, p)) == Floating
    {
      crl, crh, odr := 0x4444_4444, 0x4444_4444, 0;
      new;
      hide ReadBack, PinField, Bit;
      forall p: Word | p < 16
        ensures ReadBack(PinField(Regs(), p), Bit(Regs().odr, p)) == Floating
      {
        ResetFloats(p);
      }
    }

    function Regs(): Registers
      reads this
    {
      Registers(crl, crh, odr)
    }

    method WriteBrr(v: Word)
      modifies this`odr
      ensures odr == AfterBrr(old(odr), v)
    {
      odr := AfterBrr(odr, v);
    }

    /** The high half of BSRR resets bits; the driver never writes it. */
    method WriteBsrr(v: Word)
      requires Masked(v, 0xFFFF) == v
      modifies this`odr
      ensures odr == AfterBsrr(old(odr), v)
    {
      odr := AfterBsrr(odr, v);
    }

    /** Sets or clears the output bit of pin k if the mode is a pull. */
    method Pull(k: Word, c: Config)
      requires k < 16
      modifies this`odr
      ensures odr == PullBit(old(odr), k, c)
    {
      if c.mode == IPD {
        WriteBrr(OneHot(k));
      } else if c.mode == IPU {
        OneHotIsLow(k);
        WriteBsrr(OneHot(k));
      }
    }

    /**
     One of the two loops: the fields of eight pins from pin `base` on, rewritten in a copy of
     their configuration register, while pulls go to the output bits at once.
     */
    method ConfigureHalf(reg: Word, base: Word, pins: Word, c: Config) returns (tmpreg: Word)
      requires c.Valid() && (base == 0 || base == 8)
      modifies this`odr
      ensures FieldsDone(tmpreg, reg, base, pins, c, 8) && PullsDone(odr, old(odr), base, pins, c, 8)
    {
      hide FieldsDone, PullsDone;
      tmpreg := reg;
      var pinpos: Word := 0;
      NothingDone(reg, odr, base, pins, c);
      while pinpos < 8
        invariant pinpos <= 8
        invariant FieldsDone(tmpreg, reg, base, pins, c, pinpos)
        invariant PullsDone(odr, old(odr), base, pins, c, pinpos)
        decreases 8 - pinpos
      {
        tmpreg := ConfigurePin(tmpreg, reg, old(odr), base, pins, c, pinpos);
        pinpos := pinpos + 1;
      }
    }

    /** The loop body: pin `base + n`, if it is selected. */
    method ConfigurePin(reg: Word, ghost start: Word, ghost before: Word, base: Word, pins: Word, c: Config, n: Word) returns (tmpreg: Word)
      requires c.Valid() && base <= 8 && n < 8
      requires FieldsDone(reg, start, base, pins, c, n) && PullsDone(odr, before, base, pins, c, n)
      modifies this`odr
      ensures FieldsDone(tmpreg, start, base, pins, c, n + 1)
      ensures PullsDone(odr, before, base, pins, c, n + 1)
    {
      hide Bit, WithField, Config.Nibble, Config.Valid, Selected, PullBit, FieldsDone, PullsDone;
      FieldStep(reg, start, base, pins, c, n);
      PullStep(odr, before, base, pins, c, n);
      MaskTestsBit(pins, base + n);
      tmpreg := reg;
      if Selected(pins, base + n) {
        tmpreg := WithField(tmpreg, n, c.Nibble());
        Pull(base + n, c);
      }
    }

    /** Configures the selected pins of a port. */
    method Init(pins: Word, c: Config)
      requires c.Valid() && pins <= 0xFFFF
      modifies this
      ensures Configured(old(Regs()), pins, c, Regs())
    {
      hide Bit, FieldsDone, PullsDone, Configured;
      if pins & 0xFF != 0 {
        crl := ConfigureHalf(crl, 0, pins, c);
      } else {
        NoLowPins(pins, c, crl, odr);
      }
      ghost var mid := odr;
      if pins > 0xFF {
        crh := ConfigureHalf(crh, 8, pins, c);
      } else {
        NoHighPins(pins, c, crh, odr);
      }
      HalvesConfigure(old(Regs()), mid, Regs(), pins, c);
    }
  }
}
