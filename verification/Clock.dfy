/**
 Clock bring-up: `SystemInit` with the `SetSysClockTo...` variants as a sequence of register
 writes, each judged against the limits of the device, and `SystemCoreClockUpdate` against
 the clock tree (RM0008, sections 3.3.3, 7.2 and 7.3; high-density build, 8 MHz crystal).
 */
module Clock {
  import opened Bits

  const HSI: nat := 8_000_000
  const HSE: nat := 8_000_000
  const MHZ: nat := 1_000_000

  // ---------- the clock tree ----------

  /** The fields of CFGR. */
  datatype Fields = Fields(sw: Word, sws: Word, hpre: Word, ppre1: Word, ppre2: Word, hse: bool, half: bool, mul: Word)

  function FieldsOf(cfgr: Word): Fields {
    Fields(cfgr & 3, (cfgr >> 2) & 3, (cfgr >> 4) & 0xF, (cfgr >> 8) & 7, (cfgr >> 11) & 7,
           Bit(cfgr, 16), Bit(cfgr, 17), (cfgr >> 18) & 0xF)
  }

  /** PLLMUL: two to sixteen, and the last code means sixteen again. */
  function Multiplier(mul: Word): nat {
    if mul == 0 then 2 else if mul == 1 then 3 else if mul == 2 then 4 else if mul == 3 then 5
    else if mul == 4 then 6 else if mul == 5 then 7 else if mul == 6 then 8 else if mul == 7 then 9
    else if mul == 8 then 10 else if mul == 9 then 11 else if mul == 10 then 12 else if mul == 11 then 13
    else if mul == 12 then 14 else if mul == 13 then 15 else 16
  }

  function AhbDivider(hpre: Word): (d: nat)
    ensures d > 0
  {
    if hpre < 8 then 1 else if hpre == 8 then 2 else if hpre == 9 then 4 else if hpre == 10 then 8
    else if hpre == 11 then 16 else if hpre == 12 then 64 else if hpre == 13 then 128 else if hpre == 14 then 256 else 512
  }

  function ApbDivider(ppre: Word): (d: nat)
    ensures d > 0
  {
    if ppre < 4 then 1 else if ppre == 4 then 2 else if ppre == 5 then 4 else if ppre == 6 then 8 else 16
  }

  /** Twice the PLL output, so that the halved inputs stay exact. */
  function TwicePll(f: Fields): nat {
    Multiplier(f.mul) * (if !f.hse then HSI else if f.half then HSE else 2 * HSE)
  }

  /** Twice SYSCLK, by the clock the hardware says it is using. */
  function TwiceSysclk(f: Fields): nat {
    if f.sws == 1 then 2 * HSE else if f.sws == 2 then TwicePll(f) else 2 * HSI
  }

  /** HCLK in hertz, rounded down. */
  function Hclk(f: Fields): nat { TwiceSysclk(f) / (2 * AhbDivider(f.hpre)) }

  /** PCLK1 and PCLK2, the clocks of the peripherals on APB1 and APB2. */
  function Pclk1(f: Fields): nat { Hclk(f) / ApbDivider(f.ppre1) }

  function Pclk2(f: Fields): nat { Hclk(f) / ApbDivider(f.ppre2) }

  /** The fastest SYSCLK a flash latency allows. */
  function FlashLimit(latency: Word): nat {
    if latency == 0 then 24 * MHZ else if latency == 1 then 48 * MHZ else if latency == 2 then 72 * MHZ else 0
  }

  /** The limits of the device: wait states enough for SYSCLK, 72 MHz on the AHB and APB2, 36 MHz on APB1. */
  predicate WithinLimits(f: Fields, latency: Word) {
    && TwiceSysclk(f) <= 2 * FlashLimit(latency)
    && TwiceSysclk(f) <= 2 * 36 * MHZ * AhbDivider(f.hpre) * ApbDivider(f.ppre1)
  }

  // ---------- SystemCoreClockUpdate ----------

  const AHB_PRESC_TABLE: seq<nat> := [0, 0, 0, 0, 0, 0, 0, 0, 1, 2, 3, 4, 6, 7, 8, 9]

  function Shifted(v: nat, n: nat): nat
    decreases n
  {
    if n == 0 then v else Shifted(v, n - 1) / 2
  }

  function PowerOfTwo(n: nat): (d: nat)
    ensures d > 0
  {
    if n == 0 then 1 else 2 * PowerOfTwo(n - 1)
  }

  lemma {:induction false} ShiftedDivides(v: nat, n: nat)
    ensures Shifted(v, n) == v / PowerOfTwo(n)
  {
    if n > 0 {
      ShiftedDivides(v, n - 1);
      HalveAgain(v, PowerOfTwo(n - 1));
    }
  }

  lemma HalveAgain(v: nat, d: nat)
    requires d > 0
    ensures v / d / 2 == v / (2 * d)
  {
    var q, r := v / d, v % d;
    assert v == (q / 2) * (2 * d) + (q % 2) * d + r;
    assert (q % 2) * d + r < 2 * d;
    QuotientIs(v, 2 * d, q / 2, (q % 2) * d + r);
  }

  /** What the driver computes from CFGR; its multiplier for the last PLLMUL code is 17. */
  function DriverClock(f: Fields): nat
    requires f.hpre <= 0xF
  {
    Shifted(DriverSysclk(f), AHB_PRESC_TABLE[f.hpre as nat])
  }

  function DriverSysclk(f: Fields): nat {
    if f.sws == 1 then HSE
    else if f.sws == 2 then (if !f.hse then HSI / 2 else if f.half then HSE / 2 else HSE) * (f.mul as nat + 2)
    else HSI
  }

  /** The multiplier the driver reads is the hardware's, except for the last code. */
  lemma MultiplierRead(mul: Word)
    requires mul <= 0xF
    ensures mul as nat + 2 == if mul == 0xF then Multiplier(mul) + 1 else Multiplier(mul)
  {
    match mul {
      case 0 => case 1 => case 2 => case 3 => case 4 => case 5 => case 6 => case 7 =>
      case 8 => case 9 => case 10 => case 11 => case 12 => case 13 => case 14 => case _ =>
    }
  }

  /** The shift the driver looks up is the divider the hardware applies. */
  lemma PrescalerRead(hpre: Word, v: nat)
    requires hpre <= 0xF
    ensures Shifted(v, AHB_PRESC_TABLE[hpre as nat]) == v / AhbDivider(hpre)
  {
    var n, d := AHB_PRESC_TABLE[hpre as nat], AhbDivider(hpre);
    assert n <= 9 && d == PowerOfTwo(n) by {
      hide Shifted;
      match hpre {
        case 0 => case 1 => case 2 => case 3 => case 4 => case 5 => case 6 => case 7 =>
        case 8 => case 9 => case 10 => case 11 => case 12 => case 13 => case 14 => case _ =>
      }
    }
    hide AhbDivider;
    ShiftedDivides(v, n);
  }

  lemma HalvesCancel(v: nat, d: nat)
    requires d > 0
    ensures 2 * v / (2 * d) == v / d
  {
    var q, r := v / d, v % d;
    assert 2 * v == q * (2 * d) + 2 * r;
    QuotientIs(2 * v, 2 * d, q, 2 * r);
  }

  lemma MultipleIsFar(k: int, d: nat)
    ensures k >= 1 ==> k * d >= d
    ensures k <= -1 ==> k * d <= 0 - d
  {
    if k >= 1 { assert k * d == d + (k - 1) * d; }
    if k <= -1 { assert k * d == 0 - d + (k + 1) * d; }
  }

  lemma SameQuotient(d: nat, q: int, r: nat, q': int, r': nat)
    requires r < d && r' < d && q * d + r == q' * d + r'
    ensures q == q'
  {
    var k := q' - q;
    assert k * d == r - r';
    MultipleIsFar(k, d);
  }

  lemma QuotientIs(v: nat, d: nat, q: nat, r: nat)
    requires r < d && v == q * d + r
    ensures v / d == q
  {
    SameQuotient(d, q, r, v / d, v % d);
  }

  lemma MoreDiffers(v: nat, w: nat, d: nat)
    requires 0 < d <= w
    ensures (v + w) / d > v / d
  {
    var q, r := v / d, v % d;
    var q', r' := (v + w) / d, (v + w) % d;
  }

  function Upper(w: Word, n: Word): Word requires n < 32 { w >> n }

  /** The driver's masks are the fields of the register map. */
  lemma SwsMasked(cfgr: Word)
    ensures Masked(cfgr, 0xC) == 4 <==> FieldsOf(cfgr).sws == 1
    ensures Masked(cfgr, 0xC) == 8 <==> FieldsOf(cfgr).sws == 2
  {
  }

  lemma MulMasked(cfgr: Word)
    ensures Upper(Masked(cfgr, 0x003C_0000), 18) == FieldsOf(cfgr).mul
    ensures Upper(Masked(cfgr, 0xF0), 4) == FieldsOf(cfgr).hpre
  {
  }

  lemma InputMasked(cfgr: Word)
    ensures Masked(cfgr, 0x0001_0000) == 0 <==> !FieldsOf(cfgr).hse
    ensures Masked(cfgr, 0x0002_0000) == 0 <==> !FieldsOf(cfgr).half
  {
  }

  lemma FieldsInRange(cfgr: Word)
    ensures FieldsOf(cfgr).hpre <= 0xF && FieldsOf(cfgr).mul <= 0xF
  {
  }

  /** The rate the driver reads is the hardware's, plus one more multiple of the PLL input for the last code. */
  lemma SysclkRead(f: Fields) returns (extra: nat)
    requires f.mul <= 0xF
    ensures 2 * DriverSysclk(f) == TwiceSysclk(f) + 2 * extra
    ensures if f.sws == 2 && f.mul == 0xF then extra >= 512 else extra == 0
  {
    MultiplierRead(f.mul);
    hide Multiplier;
    extra := if f.sws == 2 && f.mul == 0xF then (if !f.hse then HSI / 2 else if f.half then HSE / 2 else HSE) else 0;
  }

  /** Dividing a rate, and the same rate with a little more, doubled or not. */
  lemma Quotients(rate: nat, extra: nat, d: nat, twice: nat)
    requires 0 < d <= 512 && twice == 2 * rate && (extra == 0 || extra >= 512)
    ensures (rate + extra) / d == twice / (2 * d) <==> extra == 0
  {
    HalvesCancel(rate, d);
    if extra != 0 {
      MoreDiffers(rate, extra, d);
    }
  }

  /** The driver's answer is HCLK exactly when the PLL is not in use with the last PLLMUL code. */
  lemma UpdateMeetsClockTree(f: Fields)
    requires f.hpre <= 0xF && f.mul <= 0xF
    ensures DriverClock(f) == Hclk(f) <==> !(f.sws == 2 && f.mul == 0xF)
  {
    var d := AhbDivider(f.hpre);
    assert d <= 512;
    hide AhbDivider, Shifted, DriverSysclk, TwiceSysclk;
    var extra := SysclkRead(f);
    PrescalerRead(f.hpre, DriverSysclk(f));
    Quotients(DriverSysclk(f) - extra, extra, d, TwiceSysclk(f));
  }

  /** With the 8 MHz crystal and the last code the driver computes 136 MHz where the hardware runs at 128. */
  lemma LastCodeMisread()
    ensures var f := Fields(2, 2, 0, 0, 0, true, false, 0xF); DriverClock(f) == 136 * MHZ && Hclk(f) == 128 * MHZ
  {
    var f := Fields(2, 2, 0, 0, 0, true, false, 0xF);
    PrescalerRead(0, DriverSysclk(f));
    assert AhbDivider(0) == 1;
  }

  // ---------- the registers and the hardware behind them ----------

  datatype Registers = Registers(cr: Word, cfgr: Word, acr: Word)

  /** What the registers say about the clocks. */
  datatype Clocks = Clocks(fields: Fields, hsiOn: bool, hseOn: bool, hseReady: bool, pllOn: bool, pllReady: bool, latency: Word)

  function ClocksOf(r: Registers): Clocks {
    Clocks(FieldsOf(r.cfgr), Bit(r.cr, 0), Bit(r.cr, 16), Bit(r.cr, 17), Bit(r.cr, 24), Bit(r.cr, 25), r.acr & 7)
  }

  /** What else the bring-up touches: clock output and ADC prescaler, USB prescaler, bypass, clock security, prefetch. */
  datatype Spare = Spare(outputs: Word, usb: bool, bypass: bool, css: bool, prefetch: bool)

  function SpareOf(r: Registers): Spare {
    Spare(r.cfgr & 0x0700_C000, Bit(r.cfgr, 22), Bit(r.cr, 18), Bit(r.cr, 19), Bit(r.acr, 4))
  }

  /** SWS is read-only. */
  function WriteCfgr(r: Registers, w: Word): Registers {
    r.(cfgr := (w & !0xC) | (r.cfgr & 0xC))
  }

  /** The ready flags, each one bit above its enable bit, are read-only and fall when the enable bit is cleared. */
  function WriteCr(r: Registers, w: Word): Registers {
    r.(cr := (w & !0x0202_0002) | (r.cr & (w << 1) & 0x0202_0002))
  }

  function WriteAcr(r: Registers, w: Word): Registers {
    r.(acr := w)
  }

  /** What the hardware may do between two accesses: the oscillator or the PLL becomes ready, SYSCLK switches over. */
  datatype Progress = Progress(hse: bool, pll: bool, switched: bool)

  /** The flag above enable bit k comes up if the enable bit is set. */
  function Ready(cr: Word, k: Word, now: bool): Word
    requires k < 31
  {
    if now && Bit(cr, k) then SetBit(cr, k + 1) else cr
  }

  function Both(cr: Word, p: Progress): Word { Ready(Ready(cr, 16, p.hse), 24, p.pll) }

  function Switches(cfgr: Word, p: Progress): Word {
    if p.switched then (cfgr & !0xC) | ((cfgr & 3) << 2) else cfgr
  }

  function Advance(r: Registers, p: Progress): Registers {
    r.(cr := Both(r.cr, p), cfgr := Switches(r.cfgr, p))
  }

  function Advanced(c: Clocks, p: Progress): Clocks {
    c.(hseReady := c.hseReady || (p.hse && c.hseOn), pllReady := c.pllReady || (p.pll && c.pllOn),
       fields := if p.switched then c.fields.(sws := c.fields.sw) else c.fields)
  }

  lemma ReadySeen(cr: Word, k: Word, now: bool, j: Word)
    requires k < 31 && j < 32
    ensures Bit(Ready(cr, k, now), j) == (Bit(cr, j) || (now && j == k + 1 && Bit(cr, k)))
  {
    SetBitAt(cr, k + 1, j);
    hide Bit, SetBit;
  }

  lemma BothSeen(cr: Word, p: Progress, j: Word)
    requires j < 32
    ensures Bit(Both(cr, p), j) == (Bit(cr, j) || (p.hse && j == 17 && Bit(cr, 16)) || (p.pll && j == 25 && Bit(cr, 24)))
  {
    hide Bit, Ready;
    var half := Ready(cr, 16, p.hse);
    ReadySeen(cr, 16, p.hse, j);
    ReadySeen(cr, 16, p.hse, 24);
    ReadySeen(half, 24, p.pll, j);
  }

  lemma SwitchesSeen(cfgr: Word, p: Progress)
    ensures FieldsOf(Switches(cfgr, p)) == if p.switched then FieldsOf(cfgr).(sws := FieldsOf(cfgr).sw) else FieldsOf(cfgr)
  {
  }

  lemma SwitchesSpare(cfgr: Word, p: Progress)
    ensures Switches(cfgr, p) & 0x0700_C000 == cfgr & 0x0700_C000 && Bit(Switches(cfgr, p), 22) == Bit(cfgr, 22)
  {
  }

  /** The registers show each hardware step as it is. */
  lemma AdvanceSeen(r: Registers, p: Progress)
    ensures ClocksOf(Advance(r, p)) == Advanced(ClocksOf(r), p)
  {
    SwitchesSeen(r.cfgr, p);
    hide Bit, FieldsOf, Both, Switches;
    BothSeen(r.cr, p, 0);
    BothSeen(r.cr, p, 16);
    BothSeen(r.cr, p, 17);
    BothSeen(r.cr, p, 24);
    BothSeen(r.cr, p, 25);
  }

  lemma AdvanceSpares(r: Registers, p: Progress)
    ensures SpareOf(Advance(r, p)) == SpareOf(r)
  {
    SwitchesSpare(r.cfgr, p);
    BothSeen(r.cr, p, 18);
    BothSeen(r.cr, p, 19);
    hide Bit, Both, Switches;
  }

  ghost predicate PllAfter(hw: nat -> Progress, k: nat) { exists n: nat :: n >= k && hw(n).pll }

  ghost predicate SwitchAfter(hw: nat -> Progress, k: nat) { exists n: nat :: n >= k && hw(n).switched }

  /** The hardware keeps answering: the PLL locks and SYSCLK switches over, however late the wait begins. */
  ghost predicate Answers(hw: nat -> Progress) {
    forall k: nat :: PllAfter(hw, k) && SwitchAfter(hw, k)
  }

  /** One step of the registers: the hardware moves, or the driver writes. */
  datatype Access = Moves(p: Progress) | Cr(w: Word) | Cfgr(w: Word) | Acr(w: Word)

  function Did(r: Registers, a: Access): Registers {
    match a
    case Moves(p) => Advance(r, p)
    case Cr(w) => WriteCr(r, w)
    case Cfgr(w) => WriteCfgr(r, w)
    case Acr(w) => WriteAcr(r, w)
  }

  // ---------- what every step must keep ----------

  /** The clock `source` runs, and the device stays within its limits on it. */
  predicate Fits(c: Clocks, source: Word) {
    && (if source == 0 then c.hsiOn else if source == 1 then c.hseReady else source == 2 && c.pllReady && (c.fields.hse ==> c.hseReady))
    && WithinLimits(c.fields.(sws := source), c.latency)
  }

  /** Safe on the clock in use and on the one selected, for the switch may come at any time. */
  predicate Safe(c: Clocks) {
    && Fits(c, c.fields.sw) && Fits(c, c.fields.sws)
    && Coherent(c)
  }

  predicate Coherent(c: Clocks) { (c.hseReady ==> c.hseOn) && (c.pllReady ==> c.pllOn) }

  /** The PLL is reconfigured only while it is off. */
  predicate Legal(c: Clocks, c': Clocks) {
    c.pllOn ==> c'.fields.hse == c.fields.hse && c'.fields.half == c.fields.half && c'.fields.mul == c.fields.mul
  }

  /** Whatever the hardware does next in a safe state is safe. */
  lemma AdvanceSafe(c: Clocks, p: Progress)
    requires Safe(c)
    ensures Safe(Advanced(c, p)) && Legal(c, Advanced(c, p))
  {
    hide WithinLimits;
    var c' := Advanced(c, p);
    assert c'.fields.(sws := c.fields.sw) == c.fields.(sws := c.fields.sw);
    assert c'.fields.(sws := c.fields.sws) == c.fields.(sws := c.fields.sws);
  }

  // ---------- the bring-up, one register write at a time ----------

  datatype Target = ToHse | To24 | To36 | To48 | To56 | To72

  function Nominal(t: Target): nat {
    match t
    case ToHse => HSE
    case To24 => 24 * MHZ
    case To36 => 36 * MHZ
    case To48 => 48 * MHZ
    case To56 => 56 * MHZ
    case To72 => 72 * MHZ
  }

  /** FLASH_ACR_LATENCY_n of each variant. */
  function LatencyBits(t: Target): Word {
    match t
    case ToHse => 0
    case To24 => 0
    case To36 => 1
    case To48 => 1
    case To56 => 2
    case To72 => 2
  }

  /** RCC_CFGR_PPRE1_DIVn. */
  function Ppre1Bits(t: Target): Word {
    match t
    case ToHse => 0
    case To24 => 0
    case To36 => 0
    case _ => 0x400
  }

  /** RCC_CFGR_PLLSRC_HSE, the PLLXTPRE bit where set, and RCC_CFGR_PLLMULLn. */
  function PllBits(t: Target): Word {
    match t
    case ToHse => 0
    case To24 => 0x0013_0000
    case To36 => 0x001F_0000
    case To48 => 0x0011_0000
    case To56 => 0x0015_0000
    case To72 => 0x001D_0000
  }

  function Switch(t: Target): Word { if t.ToHse? then 1 else 2 }

  /** A write to CR, bit by bit. */
  lemma CrSwitches(r: Registers, w: Word)
    ensures var cr := WriteCr(r, w).cr;
      Bit(cr, 0) == Bit(w, 0) && Bit(cr, 16) == Bit(w, 16) && Bit(cr, 24) == Bit(w, 24) && Bit(cr, 18) == Bit(w, 18) && Bit(cr, 19) == Bit(w, 19)
  {
  }

  lemma CrReady(r: Registers, w: Word)
    ensures var cr := WriteCr(r, w).cr;
      Bit(cr, 17) == (Bit(r.cr, 17) && Bit(w, 16)) && Bit(cr, 25) == (Bit(r.cr, 25) && Bit(w, 24))
  {
  }

  lemma CrWritten(r: Registers, w: Word)
    ensures ClocksOf(WriteCr(r, w)) == ClocksOf(r).(hsiOn := Bit(w, 0), hseOn := Bit(w, 16), hseReady := Bit(r.cr, 17) && Bit(w, 16),
                                                   pllOn := Bit(w, 24), pllReady := Bit(r.cr, 25) && Bit(w, 24))
    ensures SpareOf(WriteCr(r, w)) == SpareOf(r).(bypass := Bit(w, 18), css := Bit(w, 19))
  {
    CrSwitches(r, w);
    CrReady(r, w);
    assert WriteCr(r, w).cfgr == r.cfgr && WriteCr(r, w).acr == r.acr;
    hide Bit, WriteCr, FieldsOf;
  }

  lemma CrRaised(cr: Word, bits: Word)
    ensures var w := Raised(cr, bits);
      && Bit(w, 0) == (Bit(cr, 0) || Bit(bits, 0)) && Bit(w, 16) == (Bit(cr, 16) || Bit(bits, 16)) && Bit(w, 24) == (Bit(cr, 24) || Bit(bits, 24))
      && Bit(w, 18) == (Bit(cr, 18) || Bit(bits, 18)) && Bit(w, 19) == (Bit(cr, 19) || Bit(bits, 19))
  {
    RaisedAt(cr, bits, 0);
    RaisedAt(cr, bits, 16);
    RaisedAt(cr, bits, 18);
    RaisedAt(cr, bits, 19);
    RaisedAt(cr, bits, 24);
    hide Bit, Raised;
  }

  lemma CrMasked(cr: Word, mask: Word)
    ensures var w := Masked(cr, mask);
      && Bit(w, 0) == (Bit(cr, 0) && Bit(mask, 0)) && Bit(w, 16) == (Bit(cr, 16) && Bit(mask, 16)) && Bit(w, 24) == (Bit(cr, 24) && Bit(mask, 24))
      && Bit(w, 18) == (Bit(cr, 18) && Bit(mask, 18)) && Bit(w, 19) == (Bit(cr, 19) && Bit(mask, 19))
  {
    MaskedAt(cr, mask, 0);
    MaskedAt(cr, mask, 16);
    MaskedAt(cr, mask, 18);
    MaskedAt(cr, mask, 19);
    MaskedAt(cr, mask, 24);
    hide Bit, Masked;
  }

  lemma HsiOnStep(r: Registers)
    requires Coherent(ClocksOf(r))
    ensures ClocksOf(WriteCr(r, Raised(r.cr, 1))) == ClocksOf(r).(hsiOn := true)
    ensures SpareOf(WriteCr(r, Raised(r.cr, 1))) == SpareOf(r)
  {
    CrWritten(r, Raised(r.cr, 1));
    CrRaised(r.cr, 1);
    assert Bit(1, 0) && !Bit(1, 16) && !Bit(1, 18) && !Bit(1, 19) && !Bit(1, 24);
    hide Bit, WriteCr, Raised, FieldsOf;
  }

  lemma PrescalersResetStep(r: Registers)
    ensures ClocksOf(WriteCfgr(r, Masked(r.cfgr, 0xF8FF_0000))) ==
      var c := ClocksOf(r); c.(fields := c.fields.(sw := 0, hpre := 0, ppre1 := 0, ppre2 := 0))
    ensures SpareOf(WriteCfgr(r, Masked(r.cfgr, 0xF8FF_0000))) == SpareOf(r).(outputs := 0)
  {
  }

  lemma OscillatorsOffStep(r: Registers)
    ensures ClocksOf(WriteCr(r, Masked(r.cr, 0xFEF6_FFFF))) ==
      ClocksOf(r).(hseOn := false, hseReady := false, pllOn := false, pllReady := false)
    ensures SpareOf(WriteCr(r, Masked(r.cr, 0xFEF6_FFFF))) == SpareOf(r).(css := false)
  {
    CrWritten(r, Masked(r.cr, 0xFEF6_FFFF));
    CrMasked(r.cr, 0xFEF6_FFFF);
    assert Bit(0xFEF6_FFFF, 0) && !Bit(0xFEF6_FFFF, 16) && Bit(0xFEF6_FFFF, 18) && !Bit(0xFEF6_FFFF, 19) && !Bit(0xFEF6_FFFF, 24);
    hide Bit, WriteCr, Masked, FieldsOf;
  }

  lemma BypassOffStep(r: Registers)
    requires Coherent(ClocksOf(r))
    ensures ClocksOf(WriteCr(r, Masked(r.cr, 0xFFFB_FFFF))) == ClocksOf(r)
    ensures SpareOf(WriteCr(r, Masked(r.cr, 0xFFFB_FFFF))) == SpareOf(r).(bypass := false)
  {
    CrWritten(r, Masked(r.cr, 0xFFFB_FFFF));
    CrMasked(r.cr, 0xFFFB_FFFF);
    assert Bit(0xFFFB_FFFF, 0) && Bit(0xFFFB_FFFF, 16) && !Bit(0xFFFB_FFFF, 18) && Bit(0xFFFB_FFFF, 19) && Bit(0xFFFB_FFFF, 24);
    hide Bit, WriteCr, Masked, FieldsOf;
  }

  lemma PllResetStep(r: Registers)
    ensures ClocksOf(WriteCfgr(r, Masked(r.cfgr, 0xFF80_FFFF))) ==
      var c := ClocksOf(r); c.(fields := c.fields.(hse := false, half := false, mul := 0))
    ensures SpareOf(WriteCfgr(r, Masked(r.cfgr, 0xFF80_FFFF))) == SpareOf(r).(usb := false)
  {
  }

  lemma HseOnStep(r: Registers)
    requires Coherent(ClocksOf(r))
    ensures ClocksOf(WriteCr(r, Raised(r.cr, 0x1_0000))) == ClocksOf(r).(hseOn := true)
    ensures SpareOf(WriteCr(r, Raised(r.cr, 0x1_0000))) == SpareOf(r)
  {
    CrWritten(r, Raised(r.cr, 0x1_0000));
    CrRaised(r.cr, 0x1_0000);
    assert !Bit(0x1_0000, 0) && Bit(0x1_0000, 16) && !Bit(0x1_0000, 18) && !Bit(0x1_0000, 19) && !Bit(0x1_0000, 24);
    hide Bit, WriteCr, Raised, FieldsOf;
  }

  lemma PrefetchStep(r: Registers)
    ensures ClocksOf(WriteAcr(r, Raised(r.acr, 0x10))) == ClocksOf(r)
    ensures SpareOf(WriteAcr(r, Raised(r.acr, 0x10))) == SpareOf(r).(prefetch := true)
  {
  }

  lemma LatencyResetStep(r: Registers)
    requires IsLatency(ClocksOf(r).latency)
    ensures ClocksOf(WriteAcr(r, Masked(r.acr, 0xFFFF_FFFC))) == ClocksOf(r).(latency := 0)
    ensures SpareOf(WriteAcr(r, Masked(r.acr, 0xFFFF_FFFC))) == SpareOf(r)
  {
  }

  lemma LatencyStep(r: Registers, t: Target)
    requires ClocksOf(r).latency == 0
    ensures ClocksOf(WriteAcr(r, Raised(r.acr, LatencyBits(t)))) == ClocksOf(r).(latency := LatencyBits(t))
    ensures SpareOf(WriteAcr(r, Raised(r.acr, LatencyBits(t)))) == SpareOf(r)
  {
  }

  lemma BusStep(r: Registers, t: Target)
    requires ClocksOf(r).fields.ppre1 == 0
    ensures ClocksOf(WriteCfgr(r, Raised(r.cfgr, Ppre1Bits(t)))) ==
      var c := ClocksOf(r); c.(fields := c.fields.(ppre1 := if Divided(t) then 4 else 0))
    ensures SpareOf(WriteCfgr(r, Raised(r.cfgr, Ppre1Bits(t)))) == SpareOf(r)
  {
    hide ClocksOf, SpareOf, WriteCfgr, Raised;
    if Divided(t) {
      assert Ppre1Bits(t) == 0x400;
      DividedStep(r);
    } else {
      assert Ppre1Bits(t) == 0;
      UndividedStep(r);
    }
  }

  lemma DividedStep(r: Registers)
    requires ClocksOf(r).fields.ppre1 == 0
    ensures ClocksOf(WriteCfgr(r, Raised(r.cfgr, 0x400))) == var c := ClocksOf(r); c.(fields := c.fields.(ppre1 := 4))
    ensures SpareOf(WriteCfgr(r, Raised(r.cfgr, 0x400))) == SpareOf(r)
  {
  }

  lemma UndividedStep(r: Registers)
    ensures ClocksOf(WriteCfgr(r, Raised(r.cfgr, 0))) == ClocksOf(r)
    ensures SpareOf(WriteCfgr(r, Raised(r.cfgr, 0))) == SpareOf(r)
  {
  }

  lemma PllClearStep(r: Registers)
    ensures ClocksOf(WriteCfgr(r, Masked(r.cfgr, !0x003F_0000))) ==
      var c := ClocksOf(r); c.(fields := c.fields.(hse := false, half := false, mul := 0))
    ensures SpareOf(WriteCfgr(r, Masked(r.cfgr, !0x003F_0000))) == SpareOf(r)
  {
  }

  lemma PllStep(r: Registers, t: Target)
    requires !t.ToHse?
    requires var f := ClocksOf(r).fields; !f.hse && !f.half && f.mul == 0
    ensures ClocksOf(WriteCfgr(r, Raised(r.cfgr, PllBits(t)))) ==
      var c := ClocksOf(r); c.(fields := c.fields.(hse := true, half := Halved(t), mul := Code(t)))
    ensures SpareOf(WriteCfgr(r, Raised(r.cfgr, PllBits(t)))) == SpareOf(r)
  {
    PllBitsAre(t);
    hide *;
    PllRaised(r, PllBits(t), Halved(t), Code(t));
  }

  function PllWord(half: bool, code: Word): Word { 0x1_0000 | (if half then 0x2_0000 else 0) | (code << 18) }

  lemma PllBitsAre(t: Target)
    requires !t.ToHse?
    ensures PllBits(t) == PllWord(Halved(t), Code(t)) && Code(t) <= 0xF
  {
  }

  lemma PllRaised(r: Registers, bits: Word, half: bool, code: Word)
    requires code <= 0xF && bits == PllWord(half, code)
    requires var f := ClocksOf(r).fields; !f.hse && !f.half && f.mul == 0
    ensures ClocksOf(WriteCfgr(r, Raised(r.cfgr, bits))) ==
      var c := ClocksOf(r); c.(fields := c.fields.(hse := true, half := half, mul := code))
    ensures SpareOf(WriteCfgr(r, Raised(r.cfgr, bits))) == SpareOf(r)
  {
  }

  lemma PllOnStep(r: Registers)
    requires Coherent(ClocksOf(r))
    ensures ClocksOf(WriteCr(r, Raised(r.cr, 0x0100_0000))) == ClocksOf(r).(pllOn := true)
    ensures SpareOf(WriteCr(r, Raised(r.cr, 0x0100_0000))) == SpareOf(r)
  {
    CrWritten(r, Raised(r.cr, 0x0100_0000));
    CrRaised(r.cr, 0x0100_0000);
    assert !Bit(0x0100_0000, 0) && !Bit(0x0100_0000, 16) && !Bit(0x0100_0000, 18) && !Bit(0x0100_0000, 19) && Bit(0x0100_0000, 24);
    hide Bit, WriteCr, Raised, FieldsOf;
  }

  lemma SwitchClearStep(r: Registers)
    ensures ClocksOf(WriteCfgr(r, Masked(r.cfgr, !3))) == var c := ClocksOf(r); c.(fields := c.fields.(sw := 0))
    ensures SpareOf(WriteCfgr(r, Masked(r.cfgr, !3))) == SpareOf(r)
  {
  }

  lemma SwitchStep(r: Registers, t: Target)
    requires ClocksOf(r).fields.sw == 0
    ensures ClocksOf(WriteCfgr(r, Raised(r.cfgr, Switch(t)))) == var c := ClocksOf(r); c.(fields := c.fields.(sw := Switch(t)))
    ensures SpareOf(WriteCfgr(r, Raised(r.cfgr, Switch(t)))) == SpareOf(r)
  {
    if t.ToHse? { assert Switch(t) == 1; } else { assert Switch(t) == 2; }
  }

  // The clocks along the way.

  function Divided(t: Target): bool { t.To48? || t.To56? || t.To72? }

  function Halved(t: Target): bool { t.To24? || t.To36? }

  /** The PLLMUL code of six, seven or nine. */
  function Code(t: Target): Word {
    match t
    case ToHse => 0
    case To24 => 4
    case To36 => 7
    case To48 => 4
    case To56 => 5
    case To72 => 7
  }

  /** The wait states the flash knows. */
  predicate IsLatency(l: Word) { l == 0 || l == 1 || l == 2 }

  /** Running from HSI: everything SystemInit may rely on when it is called. Reset is such a state. */
  predicate FromHsi(c: Clocks) { c.fields.sw == 0 && c.fields.sws == 0 && c.hsiOn && IsLatency(c.latency) && Coherent(c) }

  /** What SystemInit has reset when it turns to the system clock. */
  function Clean(latency: Word): Clocks {
    Clocks(Fields(0, 0, 0, 0, 0, false, false, 0), true, false, false, false, false, latency)
  }

  /** Flash and buses set for the target, the crystal running, SYSCLK still HSI. */
  function Prepared(t: Target): Clocks {
    Clocks(Fields(0, 0, 0, if Divided(t) then 4 else 0, 0, false, false, 0), true, true, true, false, false, LatencyBits(t))
  }

  /** The PLL locked, SYSCLK still HSI. */
  function Locked(t: Target): Clocks {
    var p := Prepared(t);
    if t.ToHse? then p else p.(fields := p.fields.(hse := true, half := Halved(t), mul := Code(t)), pllOn := true, pllReady := true)
  }

  /** The target reached. */
  function Reached(t: Target): Clocks {
    var c := Locked(t);
    c.(fields := c.fields.(sw := Switch(t), sws := Switch(t)))
  }

  lemma ReachedIsSafe(t: Target)
    ensures Safe(Reached(t))
  {
    match t
    case ToHse => case To24 => case To36 => case To48 => case To56 => case To72 =>
  }

  lemma ReachedRate(t: Target)
    ensures TwiceSysclk(Reached(t).fields) == 2 * Nominal(t)
  {
    match t
    case ToHse => case To24 => case To36 => case To48 => case To56 => case To72 =>
  }

  /** The least number of wait states with which the flash keeps up. */
  ghost predicate LeastLatency(latency: Word, rate: nat) {
    IsLatency(latency) && rate <= FlashLimit(latency) && forall l :: IsLatency(l) && rate <= FlashLimit(l) ==> latency <= l
  }

  /**
   Bus clocks and wait states for a SYSCLK of that rate: AHB and APB2 at full rate, APB1 at
   full rate up to its 36 MHz and at half above, and no more wait states than needed.
   */
  ghost predicate RunsAt(c: Clocks, rate: nat) {
    && Hclk(c.fields) == rate && Pclk2(c.fields) == rate
    && Pclk1(c.fields) == (if rate <= 36_000_000 then rate else rate / 2)
    && LeastLatency(c.latency, rate)
  }

  /** Each target's clocks are what its name says. */
  lemma ReachedIsNominal(t: Target)
    ensures RunsAt(Reached(t), Nominal(t)) && DriverClock(Reached(t).fields) == Nominal(t)
  {
    ReachedHclk(t);
    ReachedBuses(t);
    LeastLatencies(t);
    hide Hclk, DriverClock, Nominal, ApbDivider, LeastLatency, Reached;
  }

  lemma ReachedHclk(t: Target)
    ensures Hclk(Reached(t).fields) == Nominal(t) == DriverClock(Reached(t).fields)
  {
    hide TwiceSysclk, DriverClock, Nominal;
    ReachedRate(t);
    UpdateMeetsClockTree(Reached(t).fields);
    assert AhbDivider(Reached(t).fields.hpre) == 1 && Code(t) != 0xF;
  }

  lemma ReachedBuses(t: Target)
    ensures var f := Reached(t).fields; ApbDivider(f.ppre2) == 1 && ApbDivider(f.ppre1) == if Nominal(t) <= 36_000_000 then 1 else 2
  {
    hide Nominal, Code, Halved, Divided, LatencyBits, Switch;
    DividedAbove(t);
  }

  lemma DividedAbove(t: Target)
    ensures Divided(t) <==> Nominal(t) > 36_000_000
  {
  }

  lemma LeastLatencies(t: Target)
    ensures LeastLatency(Reached(t).latency, Nominal(t))
  {
    ReachedLatency(t);
    LeastOf(Reached(t).latency, Nominal(t));
    hide Reached, Nominal, LeastLatency;
  }

  lemma ReachedLatency(t: Target)
    ensures Nominal(t) <= 72 * MHZ
    ensures Reached(t).latency == if Nominal(t) <= 24 * MHZ then 0 else if Nominal(t) <= 48 * MHZ then 1 else 2
  {
    assert Reached(t).latency == LatencyBits(t);
    hide Reached;
  }

  lemma LeastOf(latency: Word, rate: nat)
    requires rate <= 72 * MHZ && latency == if rate <= 24 * MHZ then 0 else if rate <= 48 * MHZ then 1 else 2
    ensures LeastLatency(latency, rate)
  {
  }

  lemma CleanIsHsi(latency: Word)
    requires IsLatency(latency)
    ensures var f := Clean(latency).fields; Hclk(f) == Pclk1(f) == Pclk2(f) == 8_000_000 && DriverClock(f) == 8_000_000
  {
    UpdateMeetsClockTree(Clean(latency).fields);
    hide DriverClock;
  }

  /** On 8 MHz every prescaler and every latency will do. */
  lemma HsiFits(f: Fields, latency: Word)
    requires f.sws == 0 && IsLatency(latency)
    ensures WithinLimits(f, latency)
  {
  }

  lemma FromHsiSafe(c: Clocks)
    requires FromHsi(c)
    ensures Safe(c)
  {
    HsiFits(c.fields.(sws := 0), c.latency);
    hide WithinLimits;
  }

  /** SYSCLK selected but not yet switched over. */
  lemma SelectedIsSafe(t: Target)
    ensures Safe(Selected(t))
  {
    hide WithinLimits;
    ReachedIsSafe(t);
    var c, r := Selected(t), Reached(t);
    HsiFits(c.fields.(sws := 0), c.latency);
    assert Fits(c, 0);
    assert c.fields.(sws := c.fields.sw) == r.fields.(sws := r.fields.sws);
    assert Fits(r, r.fields.sws);
    hide Locked, LatencyBits;
    assert Fits(c, c.fields.sw);
  }

  function Selected(t: Target): Clocks {
    var c := Locked(t);
    c.(fields := c.fields.(sw := Switch(t)))
  }

  // ---------- where SystemInit may be called ----------

  /** The five writes with which SystemInit goes back to the reset configuration. */
  function ResetWrite(n: nat, r: Registers): Access {
    if n == 0 then Cr(Raised(r.cr, 1))
    else if n == 1 then Cfgr(Masked(r.cfgr, 0xF8FF_0000))
    else if n == 2 then Cr(Masked(r.cr, 0xFEF6_FFFF))
    else if n == 3 then Cr(Masked(r.cr, 0xFFFB_FFFF))
    else Cfgr(Masked(r.cfgr, 0xFF80_FFFF))
  }

  /** What they do to the clocks. */
  function ResetEffect(n: nat, c: Clocks): Clocks {
    if n == 0 then c.(hsiOn := true)
    else if n == 1 then c.(fields := c.fields.(sw := 0, hpre := 0, ppre1 := 0, ppre2 := 0))
    else if n == 2 then c.(hseOn := false, hseReady := false, pllOn := false, pllReady := false)
    else if n == 3 then c
    else c.(fields := c.fields.(hse := false, half := false, mul := 0))
  }

  /** After the first CFGR write: every bus undivided, HSI selected but not yet in use. */
  function FirstWrite(c: Clocks): Clocks { ResetEffect(1, ResetEffect(0, c)) }

  lemma UndividedFits(f: Fields, latency: Word)
    requires WithinLimits(f, latency)
    ensures WithinLimits(f.(sw := 0, hpre := 0, ppre1 := 0, ppre2 := 0), latency) <==> TwiceSysclk(f) <= 2 * 36 * MHZ
  {
    var g := f.(sw := 0, hpre := 0, ppre1 := 0, ppre2 := 0);
    assert AhbDivider(g.hpre) == 1 && ApbDivider(g.ppre1) == 1;
    hide AhbDivider, ApbDivider, Multiplier, FlashLimit;
  }

  /**
   The buses: on a running system, SystemInit's first write to CFGR stays within the limits exactly when
   SYSCLK is at most 36 MHz, the limit of APB1.
   */
  lemma FirstWriteFits(c: Clocks)
    requires Safe(c) && IsLatency(c.latency)
    ensures Safe(FirstWrite(c)) <==> TwiceSysclk(c.fields) <= 2 * 36 * MHZ
  {
    var f := FirstWrite(c);
    HsiFits(f.fields.(sws := 0), c.latency);
    hide WithinLimits, TwiceSysclk;
    assert f.fields.(sws := f.fields.sws) == f.fields;
    assert c.fields.(sws := c.fields.sws) == c.fields;
    UndividedFits(c.fields, c.latency);
  }

  lemma ResetSeen(n: nat, r: Registers)
    requires Coherent(ClocksOf(r))
    ensures ClocksOf(Did(r, ResetWrite(n, r))) == ResetEffect(n, ClocksOf(r))
  {
    hide ClocksOf, SpareOf, WriteCr, WriteCfgr, Raised, Masked;
    if n == 0 { HsiOnStep(r); } else if n == 1 { PrescalersResetStep(r); } else if n == 2 { OscillatorsOffStep(r); }
    else if n == 3 { BypassOffStep(r); } else { PllResetStep(r); }
  }

  /** The registers after n of the writes, each with a step of the hardware before it. */
  ghost function Trail(r: Registers, hw: nat -> Progress, n: nat): Registers {
    if n == 0 then r else
      var p := Advance(Trail(r, hw, n - 1), hw(n - 1));
      Did(p, ResetWrite(n - 1, p))
  }

  ghost predicate StepKeeps(r: Registers, hw: nat -> Progress, n: nat) {
    var start, moved, written := Trail(r, hw, n), Advance(Trail(r, hw, n), hw(n)), Trail(r, hw, n + 1);
    && Safe(ClocksOf(moved)) && Legal(ClocksOf(start), ClocksOf(moved))
    && Safe(ClocksOf(written)) && Legal(ClocksOf(moved), ClocksOf(written))
  }

  /** Every state on the way is safe and every step legal. */
  ghost predicate ResetKeeps(r: Registers, hw: nat -> Progress) { forall n: nat :: n < 5 ==> StepKeeps(r, hw, n) }

  /** Running from HSI, each hardware step and each write keeps it so. */
  lemma HsiStep(n: nat, r: Registers, p: Progress)
    requires FromHsi(ClocksOf(r)) && n < 5 && (n > 2 ==> !ClocksOf(r).pllOn)
    ensures var moved := Advance(r, p); var written := Did(moved, ResetWrite(n, moved));
      && Safe(ClocksOf(moved)) && Legal(ClocksOf(r), ClocksOf(moved))
      && Safe(ClocksOf(written)) && Legal(ClocksOf(moved), ClocksOf(written))
      && FromHsi(ClocksOf(written)) && (n >= 2 ==> !ClocksOf(written).pllOn)
  {
    hide ClocksOf, Safe, Advance, Did, ResetWrite;
    var moved := Advance(r, p);
    AdvanceSeen(r, p);
    FromHsiSafe(ClocksOf(moved));
    ResetSeen(n, moved);
    FromHsiSafe(ClocksOf(Did(moved, ResetWrite(n, moved))));
  }

  lemma {:induction false} HsiTrail(r: Registers, hw: nat -> Progress, n: nat)
    requires FromHsi(ClocksOf(r)) && n <= 5
    ensures FromHsi(ClocksOf(Trail(r, hw, n))) && (n > 2 ==> !ClocksOf(Trail(r, hw, n)).pllOn)
  {
    hide ClocksOf, FromHsi, Advance, Did, ResetWrite;
    if n > 0 {
      HsiTrail(r, hw, n - 1);
      HsiStep(n - 1, Trail(r, hw, n - 1), hw(n - 1));
    }
  }

  lemma HsiKeeps(r: Registers, hw: nat -> Progress)
    requires FromHsi(ClocksOf(r))
    ensures ResetKeeps(r, hw)
  {
    hide ClocksOf, FromHsi, Advance, Did, ResetWrite, Safe, Legal;
    forall n: nat | n < 5
      ensures StepKeeps(r, hw, n)
    {
      HsiTrail(r, hw, n);
      HsiStep(n, Trail(r, hw, n), hw(n));
    }
  }

  /** Hardware that does nothing, after following the switch once if it is still to come. */
  function Idle(switching: bool): nat -> Progress {
    (k: nat) => Progress(false, false, switching && k == 0)
  }

  /** The clock in use when that hardware is done. */
  function InUse(c: Clocks, switching: bool): Word { if switching then c.fields.sw else c.fields.sws }

  lemma IdleStep(n: nat, r: Registers, switching: bool)
    requires Coherent(ClocksOf(r)) && n <= 2
    ensures var moved := Advance(r, Idle(switching)(n)); var c := ClocksOf(Did(moved, ResetWrite(n, moved)));
      && Coherent(c)
      && c.fields.sws == (if n == 0 then InUse(ClocksOf(r), switching) else ClocksOf(r).fields.sws)
      && (n == 2 ==> !c.hseReady && !c.pllReady)
  {
    hide ClocksOf, Advance, Did, ResetWrite;
    AdvanceSeen(r, Idle(switching)(n));
    ResetSeen(n, Advance(r, Idle(switching)(n)));
  }

  /** The third write then stops the clock in use. */
  lemma StopsClockInUse(r: Registers, switching: bool)
    requires Coherent(ClocksOf(r)) && InUse(ClocksOf(r), switching) != 0
    ensures !Safe(ClocksOf(Trail(r, Idle(switching), 3)))
  {
    hide ClocksOf, Advance, Did, ResetWrite, InUse, WithinLimits, Idle;
    var hw := Idle(switching);
    IdleStep(0, Trail(r, hw, 0), switching);
    IdleStep(1, Trail(r, hw, 1), switching);
    IdleStep(2, Trail(r, hw, 2), switching);
    assert Trail(r, hw, 0) == r;
  }

  /**
   From a safe running state, the writes that begin SystemInit keep the clocks safe and every step legal,
   whatever the hardware does, exactly when HSI is both selected and in use. That is all `SystemInit` asks
   for, and it then keeps them so to its end.
   */
  lemma OnlyFromHsi(r: Registers)
    requires Safe(ClocksOf(r)) && IsLatency(ClocksOf(r).latency)
    ensures (forall hw: nat -> Progress :: ResetKeeps(r, hw)) <==> ClocksOf(r).fields.sw == 0 && ClocksOf(r).fields.sws == 0
    ensures FromHsi(ClocksOf(r)) <==> ClocksOf(r).fields.sw == 0 && ClocksOf(r).fields.sws == 0
  {
    var c := ClocksOf(r);
    assert Coherent(c) && (c.fields.sw == 0 ==> c.hsiOn);
    hide ClocksOf, Safe, ResetKeeps, Trail;
    if c.fields.sw == 0 && c.fields.sws == 0 {
      forall hw: nat -> Progress
        ensures ResetKeeps(r, hw)
      {
        HsiKeeps(r, hw);
      }
    } else {
      var switching := c.fields.sws == 0;
      StopsClockInUse(r, switching);
      NotKept(r, Idle(switching));
    }
  }

  lemma NotKept(r: Registers, hw: nat -> Progress)
    requires !Safe(ClocksOf(Trail(r, hw, 3)))
    ensures !ResetKeeps(r, hw)
  {
    hide ClocksOf, Safe, Trail, Legal;
    assert ResetKeeps(r, hw) ==> StepKeeps(r, hw, 2);
  }

  /** So calling it a second time is unsafe after every variant whose target was reached. */
  lemma SecondCall(r: Registers, t: Target)
    requires ClocksOf(r) == Reached(t)
    ensures !ResetKeeps(r, Idle(false))
  {
    ReachedIsSafe(t);
    hide ClocksOf, Trail, ResetKeeps;
    StopsClockInUse(r, false);
    NotKept(r, Idle(false));
  }

  /** At 8 and 24 MHz the buses fit, and the next write to CR stops the clock in use. */
  lemma SlowVariantsFailLater(t: Target)
    requires t.ToHse? || t.To24?
    ensures Safe(Reached(t)) && Safe(FirstWrite(Reached(t))) && !Safe(ResetEffect(2, FirstWrite(Reached(t))))
  {
    ReachedIsSafe(t);
    FirstWriteFits(Reached(t));
    if t.ToHse? {
      ReachedRate(ToHse);
    } else {
      ReachedRate(To24);
    }
    hide WithinLimits, TwiceSysclk;
  }

  /**
   The manual has the hardware refuse to stop a clock in use. That saves the 8 MHz variant; after any other,
   the fifth write would then change the settings of a running PLL.
   */
  lemma RefusingHardware(t: Target)
    ensures var c := FirstWrite(Reached(t)); var c' := ResetEffect(4, c);
      if t.ToHse? then Safe(c) && Legal(c, c') && Safe(c') else c.pllOn && !Legal(c, c')
  {
    if t.ToHse? {
      SlowVariantsFailLater(t);
      hide WithinLimits;
    }
  }

  /** The hardware's next step once the target is selected. */
  lemma SelectedAdvances(t: Target, p: Progress)
    ensures Advanced(Selected(t), p) == if p.switched then Reached(t) else Selected(t)
    ensures Selected(t).fields.sws != Switch(t) && Reached(t).fields.sws == Switch(t)
  {
  }

  /** Nothing moves while the locked PLL waits to be selected. */
  lemma LockedSettled(t: Target, p: Progress)
    ensures var c := Locked(t); Advanced(c, p) == c && FromHsi(c) && c.(fields := c.fields.(sw := 0)) == c
  {
  }

  lemma SelectionLegal(t: Target)
    ensures var c := Locked(t); c.(fields := c.fields.(sw := Switch(t))) == Selected(t) && Legal(c, Selected(t)) && Legal(c, c)
  {
  }

  const HSE_STARTUP_TIMEOUT: nat := 0x500

  /** The crystal is seen running by one of the reads from step `start` on: at most 0x500 polls and a last look. */
  ghost predicate HseStarts(hw: nat -> Progress, start: nat) {
    exists k: nat :: start <= k <= start + 0x500 && hw(k).hse
  }

  datatype Entry = Entry(access: Access, regs: Registers)

  class Rcc {
    var regs: Registers
    var coreClock: nat
    var now: nat
    const hw: nat -> Progress
    ghost var trace: seq<Entry>

    /** Reset values; the variable starts at the target's frequency. */
    constructor (t: Target, hw: nat -> Progress)
      ensures Kept(trace) && FromHsi(ClocksOf(regs)) && coreClock == Nominal(t) && this.hw == hw
    {
      this.hw := hw;
      now := 0;
      coreClock := Nominal(t);
      regs := Registers(0x83, 0, 0x30);
      trace := [Entry(Moves(Progress(false, false, false)), Registers(0x83, 0, 0x30))];
      new;
      FromHsiSafe(ClocksOf(regs));
      hide Safe;
    }

    /**
     From the end of `base` on, every entry of the trace is what one step makes of the entry before it, the
     last is the present, every state is safe and every step legal.
     */
    ghost predicate Kept(base: seq<Entry>)
      reads this
    {
      && 0 < |base| <= |trace| && trace[..|base|] == base && trace[|trace| - 1].regs == regs
      && (forall i :: |base| <= i < |trace| ==> trace[i].regs == Did(trace[i - 1].regs, trace[i].access))
      && (forall i :: |base| - 1 <= i < |trace| ==> Safe(ClocksOf(trace[i].regs)))
      && forall i :: |base| <= i < |trace| ==> Legal(ClocksOf(trace[i - 1].regs), ClocksOf(trace[i].regs))
    }

    method Put(access: Access, ghost base: seq<Entry>)
      requires Kept(base) && Safe(ClocksOf(Did(regs, access))) && Legal(ClocksOf(regs), ClocksOf(Did(regs, access)))
      modifies `regs, `trace
      ensures Kept(base) && regs == Did(old(regs), access)
    {
      hide Safe, Legal, ClocksOf, Did;
      trace := trace + [Entry(access, Did(regs, access))];
      regs := Did(regs, access);
    }

    /** The hardware moves on by one step before each access. */
    method Tick(ghost base: seq<Entry>)
      requires Kept(base)
      modifies `regs, `trace, `now
      ensures Kept(base) && now == old(now) + 1 && SpareOf(regs) == SpareOf(old(regs))
      ensures ClocksOf(regs) == Advanced(ClocksOf(old(regs)), hw(old(now)))
    {
      assert Safe(ClocksOf(regs));
      hide Safe, Legal, ClocksOf, SpareOf, Advance, Kept;
      AdvanceSeen(regs, hw(now));
      AdvanceSpares(regs, hw(now));
      AdvanceSafe(ClocksOf(regs), hw(now));
      Put(Moves(hw(now)), base);
      now := now + 1;
    }

    /** Tick while running from HSI: only the ready flags can move. */
    method TickOnHsi(ghost base: seq<Entry>)
      requires Kept(base) && FromHsi(ClocksOf(regs))
      modifies `regs, `trace, `now
      ensures Kept(base) && now == old(now) + 1 && SpareOf(regs) == SpareOf(old(regs))
      ensures ClocksOf(regs) == Advanced(ClocksOf(old(regs)), hw(old(now)))
      ensures FromHsi(ClocksOf(regs)) && ClocksOf(regs).fields == ClocksOf(old(regs)).fields && ClocksOf(regs).latency == ClocksOf(old(regs)).latency
    {
      hide ClocksOf, SpareOf, Safe, Legal, Kept;
      Tick(base);
    }

    method PutOnHsi(access: Access, ghost base: seq<Entry>)
      requires Kept(base) && FromHsi(ClocksOf(Did(regs, access))) && Legal(ClocksOf(regs), ClocksOf(Did(regs, access)))
      modifies `regs, `trace
      ensures Kept(base) && regs == Did(old(regs), access)
    {
      hide ClocksOf, SpareOf, FromHsi, Legal, Kept, Safe, Did;
      FromHsiSafe(ClocksOf(Did(regs, access)));
      Put(access, base);
    }

    method EnableHsi(ghost base: seq<Entry>)
      requires Kept(base) && FromHsi(ClocksOf(regs))
      modifies `regs, `trace, `now
      ensures Kept(base) && now == old(now) + 1 && FromHsi(ClocksOf(regs))
      ensures ClocksOf(regs).latency == ClocksOf(old(regs)).latency && SpareOf(regs) == SpareOf(old(regs))
      ensures ClocksOf(regs).fields == ClocksOf(old(regs)).fields
    {
      hide ClocksOf, SpareOf, WriteCr, Kept, Raised, Advanced;
      TickOnHsi(base);
      HsiOnStep(regs);
      PutOnHsi(ResetWrite(0, regs), base);
    }

    /** HSI on and selected, every bus undivided. */
    method ResetSwitch(ghost base: seq<Entry>)
      requires Kept(base) && FromHsi(ClocksOf(regs))
      modifies `regs, `trace, `now
      ensures Kept(base) && now == old(now) + 2 && FromHsi(ClocksOf(regs))
      ensures ClocksOf(regs).latency == ClocksOf(old(regs)).latency && SpareOf(regs) == SpareOf(old(regs)).(outputs := 0)
      ensures ClocksOf(regs).fields == ClocksOf(old(regs)).fields.(sw := 0, hpre := 0, ppre1 := 0, ppre2 := 0)
    {
      hide ClocksOf, SpareOf, WriteCfgr, Kept, Masked, Advanced;
      EnableHsi(base);
      TickOnHsi(base);
      PrescalersResetStep(regs);
      PutOnHsi(ResetWrite(1, regs), base);
    }

    /** Crystal, clock security, PLL and bypass off, then the PLL bits reset. */
    method ResetOscillators(ghost base: seq<Entry>)
      requires Kept(base) && FromHsi(ClocksOf(regs))
      requires var f := ClocksOf(regs).fields; f.hpre == f.ppre1 == f.ppre2 == 0
      modifies `regs, `trace, `now
      ensures Kept(base) && now == old(now) + 3
      ensures SpareOf(regs) == SpareOf(old(regs)).(css := false, bypass := false, usb := false)
      ensures ClocksOf(regs) == Clean(ClocksOf(old(regs)).latency)
    {
      hide ClocksOf, SpareOf, WriteCfgr, WriteCr, Kept, Masked, Raised;
      TickOnHsi(base);
      OscillatorsOffStep(regs);
      PutOnHsi(ResetWrite(2, regs), base);
      TickOnHsi(base);
      BypassOffStep(regs);
      PutOnHsi(ResetWrite(3, regs), base);
      TickOnHsi(base);
      PllResetStep(regs);
      PutOnHsi(ResetWrite(4, regs), base);
    }

    /** The five writes that go back to the reset configuration. */
    method ResetConfiguration(ghost base: seq<Entry>)
      requires Kept(base) && FromHsi(ClocksOf(regs))
      modifies `regs, `trace, `now
      ensures Kept(base) && now == old(now) + 5
      ensures SpareOf(regs) == Spare(0, false, false, false, SpareOf(old(regs)).prefetch)
      ensures ClocksOf(regs) == Clean(ClocksOf(old(regs)).latency)
    {
      hide ClocksOf, SpareOf, Kept, FromHsi, Clean;
      ResetSwitch(base);
      ResetOscillators(base);
    }

    /** Polls HSERDY until it is set or the counter runs out, then looks once more. */
    method AwaitHse(ghost base: seq<Entry>, ghost latency: Word) returns (ready: bool)
      requires Kept(base) && IsLatency(latency) && ClocksOf(regs) == Clean(latency).(hseOn := true)
      modifies `regs, `trace, `now
      ensures Kept(base)
      ensures ready == HseStarts(hw, old(now)) && SpareOf(regs) == SpareOf(old(regs))
      ensures ClocksOf(regs) == Clean(latency).(hseOn := true, hseReady := ready)
    {
      hide ClocksOf, SpareOf, Kept;
      var counter, status := 0, false;
      var polling := true;
      while polling
        invariant Kept(base) && now == old(now) + counter && counter <= HSE_STARTUP_TIMEOUT
        invariant polling == (!status && counter != HSE_STARTUP_TIMEOUT)
        invariant status == exists k: nat :: old(now) <= k < now && hw(k).hse
        invariant ClocksOf(regs) == Clean(latency).(hseOn := true, hseReady := status) && SpareOf(regs) == SpareOf(old(regs))
        decreases HSE_STARTUP_TIMEOUT - counter
      {
        TickOnHsi(base);
        status := HseReady();
        counter := counter + 1;
        polling := !status && counter != HSE_STARTUP_TIMEOUT;
      }
      TickOnHsi(base);
      ready := HseReady();
    }

    method HseReady() returns (ready: bool)
      ensures ready == ClocksOf(regs).hseReady
    {
      ready := Bit(regs.cr, 17);
    }

    /** Prefetch on, wait states for the target. */
    method SetFlash(t: Target, ghost base: seq<Entry>)
      requires Kept(base) && IsLatency(ClocksOf(regs).latency)
      requires ClocksOf(regs) == Clean(ClocksOf(regs).latency).(hseOn := true, hseReady := true)
      modifies `regs, `trace, `now
      ensures Kept(base) && ClocksOf(regs) == Clean(LatencyBits(t)).(hseOn := true, hseReady := true)
      ensures SpareOf(regs) == SpareOf(old(regs)).(prefetch := true)
    {
      hide ClocksOf, SpareOf, WriteAcr, Kept, Masked, Raised;
      TickOnHsi(base);
      PrefetchStep(regs);
      PutOnHsi(Acr(Raised(regs.acr, 0x10)), base);
      TickOnHsi(base);
      LatencyResetStep(regs);
      PutOnHsi(Acr(Masked(regs.acr, 0xFFFF_FFFC)), base);
      TickOnHsi(base);
      LatencyStep(regs, t);
      PutOnHsi(Acr(Raised(regs.acr, LatencyBits(t))), base);
    }

    /** AHB and APB2 undivided, APB1 divided where the target is faster than it. */
    method SetBuses(t: Target, ghost base: seq<Entry>)
      requires Kept(base) && ClocksOf(regs) == Clean(LatencyBits(t)).(hseOn := true, hseReady := true)
      modifies `regs, `trace, `now
      ensures Kept(base) && ClocksOf(regs) == Prepared(t) && SpareOf(regs) == SpareOf(old(regs))
    {
      hide ClocksOf, SpareOf, WriteCfgr, Kept, Masked, Raised;
      TickOnHsi(base);
      UndividedStep(regs);
      PutOnHsi(Cfgr(Raised(regs.cfgr, 0)), base);
      TickOnHsi(base);
      UndividedStep(regs);
      PutOnHsi(Cfgr(Raised(regs.cfgr, 0)), base);
      TickOnHsi(base);
      BusStep(regs, t);
      PutOnHsi(Cfgr(Raised(regs.cfgr, Ppre1Bits(t))), base);
    }

    /** The PLL from the crystal at the target's multiple, started and awaited. */
    method StartPll(t: Target, ghost base: seq<Entry>)
      requires Kept(base) && ClocksOf(regs) == Prepared(t) && !t.ToHse? && Answers(hw)
      modifies `regs, `trace, `now
      ensures Kept(base) && ClocksOf(regs) == Locked(t) && SpareOf(regs) == SpareOf(old(regs))
    {
      hide ClocksOf, SpareOf, WriteCfgr, WriteCr, Kept, Masked, Raised;
      TickOnHsi(base);
      PllClearStep(regs);
      PutOnHsi(Cfgr(Masked(regs.cfgr, !0x003F_0000)), base);
      TickOnHsi(base);
      PllStep(regs, t);
      PutOnHsi(Cfgr(Raised(regs.cfgr, PllBits(t))), base);
      TickOnHsi(base);
      PllOnStep(regs);
      PutOnHsi(Cr(Raised(regs.cr, 0x0100_0000)), base);
      AwaitPll(t, base);
    }

    method AwaitPll(t: Target, ghost base: seq<Entry>)
      requires Kept(base) && ClocksOf(regs) == Locked(t).(pllReady := false) && !t.ToHse? && Answers(hw)
      modifies `regs, `trace, `now
      ensures Kept(base) && ClocksOf(regs) == Locked(t) && SpareOf(regs) == SpareOf(old(regs))
    {
      hide ClocksOf, SpareOf, Kept;
      assert PllAfter(hw, now);
      ghost var n: nat :| n >= now && hw(n).pll;
      TickOnHsi(base);
      var ready := PllReady();
      while !ready
        invariant Kept(base) && ClocksOf(regs) == Locked(t).(pllReady := ready) && SpareOf(regs) == SpareOf(old(regs))
        invariant ready || now <= n
        decreases n - now
      {
        TickOnHsi(base);
        ready := PllReady();
      }
    }

    method PllReady() returns (ready: bool)
      ensures ready == ClocksOf(regs).pllReady
    {
      ready := Bit(regs.cr, 25);
    }

    /** Selects the target as SYSCLK and waits for the hardware to switch over. */
    method SwitchOver(t: Target, ghost base: seq<Entry>)
      requires Kept(base) && ClocksOf(regs) == Locked(t) && Answers(hw)
      modifies `regs, `trace, `now
      ensures Kept(base) && ClocksOf(regs) == Reached(t) && SpareOf(regs) == SpareOf(old(regs))
    {
      hide ClocksOf, SpareOf, WriteCfgr, Kept, Masked, Raised, Safe, Advanced, Locked, Selected, Reached, FromHsi, Legal, Switch;
      LockedSettled(t, hw(now));
      SelectionLegal(t);
      TickOnHsi(base);
      SwitchClearStep(regs);
      PutOnHsi(Cfgr(Masked(regs.cfgr, !3)), base);
      LockedSettled(t, hw(now));
      TickOnHsi(base);
      SwitchStep(regs, t);
      SelectedIsSafe(t);
      Put(Cfgr(Raised(regs.cfgr, Switch(t))), base);
      AwaitSwitch(t, base);
    }

    method AwaitSwitch(t: Target, ghost base: seq<Entry>)
      requires Kept(base) && ClocksOf(regs) == Selected(t) && Answers(hw)
      modifies `regs, `trace, `now
      ensures Kept(base) && ClocksOf(regs) == Reached(t) && SpareOf(regs) == SpareOf(old(regs))
    {
      hide ClocksOf, SpareOf, Kept, Advanced, Selected, Reached, Switch;
      assert SwitchAfter(hw, now);
      ghost var n: nat :| n >= now && hw(n).switched;
      SelectedAdvances(t, hw(now));
      Tick(base);
      var source := Source();
      while source != Switch(t)
        invariant Kept(base) && source == ClocksOf(regs).fields.sws && SpareOf(regs) == SpareOf(old(regs))
        invariant ClocksOf(regs) == if source == Switch(t) then Reached(t) else Selected(t)
        invariant source == Switch(t) || now <= n
        decreases n - now
      {
        SelectedAdvances(t, hw(now));
        Tick(base);
        source := Source();
      }
    }

    method Source() returns (source: Word)
      ensures source == ClocksOf(regs).fields.sws
    {
      source := (regs.cfgr >> 2) & 3;
    }

    /** SetSysClockToHSE, SetSysClockTo24 and so on: the target if the crystal starts, otherwise HSI. */
    method SetSysClock(t: Target, ghost base: seq<Entry>)
      requires Kept(base) && Answers(hw)
      requires IsLatency(ClocksOf(regs).latency) && ClocksOf(regs) == Clean(ClocksOf(regs).latency)
      modifies `regs, `trace, `now
      ensures Kept(base)
      ensures ClocksOf(regs) == if HseStarts(hw, old(now) + 1) then Reached(t) else ClocksOf(old(regs)).(hseOn := true)
      ensures SpareOf(regs) == if HseStarts(hw, old(now) + 1) then SpareOf(old(regs)).(prefetch := true) else SpareOf(old(regs))
    {
      assert t.ToHse? ==> Locked(t) == Prepared(t);
      hide ClocksOf, SpareOf, WriteCr, Kept, Masked, Raised, HseStarts, Answers, Reached, Prepared, Locked;
      ghost var latency := ClocksOf(regs).latency;
      TickOnHsi(base);
      HseOnStep(regs);
      PutOnHsi(Cr(Raised(regs.cr, 0x1_0000)), base);
      var ready := AwaitHse(base, latency);
      if ready {
        SetFlash(t, base);
        SetBuses(t, base);
        if !t.ToHse? {
          StartPll(t, base);
        }
        SwitchOver(t, base);
      }
    }

    /**
     Every state of the clocks on the way is safe and every step legal, whatever the hardware does in
     between. The target is reached if the crystal starts in time; otherwise the device stays on HSI.
     */
    method SystemInit(t: Target)
      requires trace != [] && Kept(trace) && FromHsi(ClocksOf(regs)) && Answers(hw)
      modifies `regs, `trace, `now
      ensures Kept(old(trace))
      ensures ClocksOf(regs) == if HseStarts(hw, old(now) + 6) then Reached(t)
                                else Clean(ClocksOf(old(regs)).latency).(hseOn := true)
      ensures SpareOf(regs) == Spare(0, false, false, false, HseStarts(hw, old(now) + 6) || SpareOf(old(regs)).prefetch)
      ensures HseStarts(hw, old(now) + 6) ==> RunsAt(ClocksOf(regs), Nominal(t))
      ensures !HseStarts(hw, old(now) + 6) ==> var f := FieldsOf(regs.cfgr); Hclk(f) == Pclk1(f) == Pclk2(f) == 8_000_000
      // The variable's static value is right without an update only then.
      ensures coreClock == Nominal(t) ==> (coreClock == Hclk(FieldsOf(regs.cfgr)) <==> HseStarts(hw, old(now) + 6) || t.ToHse?)
    {
      ghost var base, latency := trace, ClocksOf(regs).latency;
      ReachedIsNominal(t);
      CleanIsHsi(latency);
      assert ClocksOf(regs).fields == FieldsOf(regs.cfgr);
      assert RunsAt(Reached(t), Nominal(t)) ==> Hclk(Reached(t).fields) == Nominal(t);
      hide Kept, Answers, HseStarts, Reached, FieldsOf, Hclk, Pclk1, Pclk2, RunsAt, Bit, SpareOf, Nominal, DriverClock;
      ResetConfiguration(base);
      SetSysClock(t, base);
    }

    /** The rate of SYSCLK, read field by field. */
    method ReadSysclk()
      modifies `coreClock
      ensures coreClock == DriverSysclk(FieldsOf(regs.cfgr))
    {
      SwsMasked(regs.cfgr);
      MulMasked(regs.cfgr);
      InputMasked(regs.cfgr);
      hide FieldsOf, Bit, Masked, Upper;
      var tmp := Masked(regs.cfgr, 0xC);
      if tmp == 4 {
        coreClock := HSE;
      } else if tmp == 8 {
        var pllmull := Upper(Masked(regs.cfgr, 0x003C_0000), 18) as nat + 2;
        var pllsource := Masked(regs.cfgr, 0x0001_0000);
        if pllsource == 0 {
          coreClock := HSI / 2 * pllmull;
        } else if Masked(regs.cfgr, 0x0002_0000) != 0 {
          coreClock := HSE / 2 * pllmull;
        } else {
          coreClock := HSE * pllmull;
        }
      } else {
        coreClock := HSI;
      }
    }

    /** Recomputes the core clock from CFGR; exact unless the PLL is in use with the last PLLMUL code. */
    method SystemCoreClockUpdate()
      modifies `coreClock
      ensures coreClock == DriverClock(FieldsOf(regs.cfgr))
      ensures var f := FieldsOf(regs.cfgr); coreClock == Hclk(f) <==> !(f.sws == 2 && f.mul == 0xF)
    {
      ghost var f := FieldsOf(regs.cfgr);
      FieldsInRange(regs.cfgr);
      MulMasked(regs.cfgr);
      UpdateMeetsClockTree(f);
      assert DriverClock(f) == Shifted(DriverSysclk(f), AHB_PRESC_TABLE[f.hpre as nat]);
      hide FieldsOf, Hclk, Shifted, DriverClock, DriverSysclk, Bit, Masked, Upper;
      ReadSysclk();
      var tmp := AHB_PRESC_TABLE[Upper(Masked(regs.cfgr, 0xF0), 4) as nat];
      coreClock := Shifted(coreClock, tmp);
    }
  }
}
