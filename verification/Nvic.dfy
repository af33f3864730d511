/**
 Interrupt priorities: the CMSIS encoder and decoder with a symbolic number of priority
 bits, and the library's own `NVIC_Init` for four bits, against the order in which the
 processor compares priorities (ARMv7-M Architecture Reference Manual, section B1.5.4).
 */
module Nvic {
  import opened Bits

  /** The w low bits of v: `v & ((1 << w) - 1)`. */
  function Low(v: Word, w: Word): Word
    requires w <= 8
  {
    v & ((1 << w) - 1)
  }

  /** v without its w low bits. */
  function High(v: Word, w: Word): Word
    requires w <= 8
  {
    v >> w
  }

  /** Number of preemption bits for a group and n priority bits. */
  function PreemptBits(group: Word, n: Word): Word {
    if 7 - (group & 7) > n then n else 7 - (group & 7)
  }

  /** Number of subpriority bits; the subtraction wraps around before n brings it back. */
  function SubBits(group: Word, n: Word): Word {
    if (group & 7) + n < 7 then 0 else (group & 7) - 7 + n
  }

  /** The two widths share the n bits, in spite of unsigned wrap-around. */
  lemma WidthsSum(group: Word, n: Word)
    requires 1 <= n <= 8
    ensures PreemptBits(group, n) <= 7 && SubBits(group, n) <= 8 && PreemptBits(group, n) + SubBits(group, n) == n
  {
  }

  lemma WidthsFit(group: Word, n: Word)
    requires 1 <= n <= 8
    ensures PreemptBits(group, n) + SubBits(group, n) <= 8 && PreemptBits(group, n) <= 8
  {
  }

  /** Both parts side by side. */
  function Join(p: Word, s: Word, a: Word, b: Word): Word
    requires a <= 8 && b <= 8
  {
    (Low(p, a) << b) | Low(s, b)
  }

  function Encode(group: Word, preempt: Word, sub: Word, n: Word): Word
    requires 1 <= n <= 8
  {
    WidthsSum(group, n);
    Join(preempt, sub, PreemptBits(group, n), SubBits(group, n))
  }

  function Decode(priority: Word, group: Word, n: Word): (Word, Word)
    requires 1 <= n <= 8
  {
    WidthsSum(group, n);
    (Low(High(priority, SubBits(group, n)), PreemptBits(group, n)), Low(priority, SubBits(group, n)))
  }

  lemma JoinSplits(p: Word, s: Word, a: Word, b: Word)
    requires a <= 8 && b <= 8
    ensures High(Join(p, s, a, b), b) == Low(p, a) && Low(Join(p, s, a, b), b) == Low(s, b)
  {
  }

  lemma SplitJoins(x: Word, a: Word, b: Word)
    requires a <= 8 && b <= 8 && a + b <= 8
    ensures Join(High(x, b), x, a, b) == Low(x, a + b)
  {
  }

  lemma LowTwice(v: Word, w: Word)
    requires w <= 8
    ensures Low(Low(v, w), w) == Low(v, w)
  {
  }

  lemma JoinOfLow(p: Word, s: Word, a: Word, b: Word)
    requires a <= 8 && b <= 8
    ensures Join(Low(p, a), Low(s, b), a, b) == Join(p, s, a, b)
  {
    LowTwice(p, a);
    LowTwice(s, b);
    hide Low;
  }

  /** Decoding an encoded pair gives the pair, reduced to the widths of the group. */
  lemma DecodeOfEncode(group: Word, preempt: Word, sub: Word, n: Word)
    requires 1 <= n <= 8
    ensures Decode(Encode(group, preempt, sub, n), group, n) ==
      (WidthsSum(group, n); (Low(preempt, PreemptBits(group, n)), Low(sub, SubBits(group, n))))
  {
    hide Low, High, Join, PreemptBits, SubBits;
    WidthsSum(group, n);
    JoinSplits(preempt, sub, PreemptBits(group, n), SubBits(group, n));
    LowTwice(preempt, PreemptBits(group, n));
  }

  /** Encoding a decoded priority gives its n low bits back. */
  lemma EncodeOfDecode(x: Word, group: Word, n: Word)
    requires 1 <= n <= 8
    ensures var (p, s) := Decode(x, group, n); Encode(group, p, s, n) == Low(x, n)
  {
    hide Low, High, Join, PreemptBits, SubBits;
    WidthsSum(group, n);
    var a, b := PreemptBits(group, n), SubBits(group, n);
    JoinOfLow(High(x, b), x, a, b);
    SplitJoins(x, a, b);
  }

  /** Unsigned comparison, as the processor compares priorities. */
  predicate Less(x: Word, y: Word) { x < y }

  lemma LessIsAsymmetric(x: Word, y: Word)
    requires x < 256 && y < 256
    ensures !(Less(x, y) && Less(y, x))
    ensures x != y ==> Less(x, y) || Less(y, x)
  {
  }

  lemma HighIsMonotone(x: Word, y: Word, b: Word)
    requires b <= 8 && y <= x < 256
    ensures High(y, b) <= High(x, b)
  {
  }

  lemma HighOrders(x: Word, y: Word, b: Word)
    requires b <= 8 && x < 256 && y < 256 && Less(High(x, b), High(y, b))
    ensures Less(x, y)
  {
    hide High;
    if y <= x {
      HighIsMonotone(x, y, b);
    }
  }

  lemma LowOrders(x: Word, y: Word, b: Word)
    requires b <= 8 && High(x, b) == High(y, b) && x < 256 && y < 256
    ensures Less(x, y) <==> Less(Low(x, b), Low(y, b))
  {
  }

  lemma JoinIsByte(p: Word, s: Word, a: Word, b: Word)
    requires a <= 8 && b <= 8 && a + b <= 8
    ensures Join(p, s, a, b) < 256
  {
  }

  /** A part that fits its width. */
  predicate Fits(p: Word, a: Word)
    requires a <= 8
  {
    p == Low(p, a)
  }

  lemma JoinOrders(p: Word, s: Word, q: Word, t: Word, a: Word, b: Word)
    requires a <= 8 && b <= 8 && a + b <= 8
    requires Fits(p, a) && Fits(q, a) && Fits(s, b) && Fits(t, b)
    ensures Less(Join(p, s, a, b), Join(q, t, a, b)) <==> Less(p, q) || (p == q && Less(s, t))
  {
    hide Low, High, Join, Less;
    var x, y := Join(p, s, a, b), Join(q, t, a, b);
    JoinIsByte(p, s, a, b);
    JoinIsByte(q, t, a, b);
    JoinSplits(p, s, a, b);
    JoinSplits(q, t, a, b);
    LowIsSmall(p, a);
    LowIsSmall(q, a);
    LessIsAsymmetric(p, q);
    LessIsAsymmetric(x, y);
    if Less(p, q) {
      HighOrders(x, y, b);
    } else if p == q {
      LowOrders(x, y, b);
    } else {
      HighOrders(y, x, b);
    }
  }

  /** A pair that fits the widths of its group. */
  predicate InRange(group: Word, preempt: Word, sub: Word, n: Word)
    requires 1 <= n <= 8
  {
    WidthsSum(group, n);
    Fits(preempt, PreemptBits(group, n)) && Fits(sub, SubBits(group, n))
  }

  /** Encoded priorities compare exactly as the pairs do, preemption priority first. */
  lemma EncodeIsMonotone(group: Word, p: Word, s: Word, q: Word, t: Word, n: Word)
    requires 1 <= n <= 8 && InRange(group, p, s, n) && InRange(group, q, t, n)
    ensures Less(Encode(group, p, s, n), Encode(group, q, t, n)) <==> Less(p, q) || (p == q && Less(s, t))
  {
    hide Low, Join, Fits, Less, PreemptBits, SubBits;
    WidthsSum(group, n);
    WidthsFit(group, n);
    JoinOrders(p, s, q, t, PreemptBits(group, n), SubBits(group, n));
  }

  // ---------- what the processor compares ----------

  /** The byte stored in an interrupt's priority register: n bits at the top. */
  function Stored(priority: Word, n: Word): (byte: Word)
    requires 1 <= n <= 8
    ensures byte <= 0xFF
  {
    (priority << (8 - n)) & 0xFF
  }

  /** What the stored byte reads back as. */
  function Loaded(byte: Word, n: Word): Word
    requires 1 <= n <= 8
  {
    byte >> (8 - n)
  }

  /** The part of a stored byte that decides preemption: the bits above PRIGROUP. */
  function GroupPriority(byte: Word, group: Word): Word { byte >> ((group & 7) + 1) }

  /** Storing and reading back keeps the n low bits. */
  lemma LoadOfStore(priority: Word, n: Word)
    requires 1 <= n <= 8
    ensures Loaded(Stored(priority, n), n) == Low(priority, n)
  {
  }

  /** A byte without the low bits the device does not implement. */
  function Implemented(byte: Word, n: Word): Word
    requires 1 <= n <= 8
  {
    byte & (0xFF << (8 - n))
  }

  lemma LoadedFits(byte: Word, n: Word)
    requires 1 <= n <= 8 && byte & 0xFF == byte
    ensures Fits(Loaded(byte, n), n) && Stored(Loaded(byte, n), n) == Implemented(byte, n)
  {
  }

  lemma ByteIsSmall(b: bv8)
    ensures b as Word & 0xFF == b as Word
  {
  }

  lemma StoredByte(priority: Word, n: Word)
    requires 1 <= n <= 8
    ensures (Stored(priority, n) as bv8) as Word == Stored(priority, n)
  {
  }

  /** How many preemption bits of the group the device does not have. */
  function Lacking(group: Word, n: Word): (k: Word)
    requires 1 <= n <= 8
    ensures k <= 7
  {
    WidthsSum(group, n);
    7 - (group & 7) - PreemptBits(group, n)
  }

  function Scaled(p: Word, k: Word): Word
    requires k <= 7
  {
    p << k
  }

  /** The preemption part of a stored encoded pair is the preemption priority, scaled by the bits the device lacks. */
  lemma GroupPriorityOfStored(group: Word, p: Word, s: Word, n: Word)
    requires 1 <= n <= 8
    ensures GroupPriority(Stored(Encode(group, p, s, n), n), group) == (WidthsSum(group, n);
      Scaled(Low(p, PreemptBits(group, n)), Lacking(group, n)))
  {
    WidthsSum(group, n);
    StoredGroup(p, s, group & 7, PreemptBits(group, n), SubBits(group, n), n);
  }

  lemma StoredGroup(p: Word, s: Word, g: Word, a: Word, b: Word, n: Word)
    requires g <= 7 && 1 <= n <= 8 && a <= n && b == n - a && a <= 7 - g
    requires a == n || a == 7 - g
    ensures Stored(Join(p, s, a, b), n) >> (g + 1) == Low(p, a) << (7 - g - a)
  {
  }

  /**
   On any device and in any group, one interrupt preempts another exactly when its
   preemption priority is the smaller number.
   */
  lemma PreemptsBySmallerPriority(group: Word, p: Word, s: Word, q: Word, t: Word, n: Word)
    requires 1 <= n <= 8 && InRange(group, p, s, n) && InRange(group, q, t, n)
    ensures Less(GroupPriority(Stored(Encode(group, p, s, n), n), group), GroupPriority(Stored(Encode(group, q, t, n), n), group))
      <==> Less(p, q)
  {
    hide Encode, Stored, GroupPriority, Low, PreemptBits, SubBits, Scaled, Less;
    WidthsSum(group, n);
    GroupPriorityOfStored(group, p, s, n);
    GroupPriorityOfStored(group, q, t, n);
    var a := PreemptBits(group, n);
    LowIsSmall(p, a);
    LowIsSmall(q, a);
    ScaledOrders(p, q, Lacking(group, n));
  }

  lemma LowIsSmall(p: Word, a: Word)
    requires a <= 8 && Fits(p, a)
    ensures p < 256
  {
  }

  lemma ScaledOrders(p: Word, q: Word, k: Word)
    requires p < 256 && q < 256 && k <= 7
    ensures Less(Scaled(p, k), Scaled(q, k)) <==> Less(p, q)
  {
    hide Less, Scaled;
    match k {
      case 0 => By0(p, q);
      case 1 => By1(p, q);
      case 2 => By2(p, q);
      case 3 => By3(p, q);
      case 4 => By4(p, q);
      case 5 => By5(p, q);
      case 6 => By6(p, q);
      case _ => By7(p, q);
    }
  }

  // One lemma a shift: with the shift a literal, each is a matter of eight bits.

  lemma By0(p: Word, q: Word)
    requires p < 256 && q < 256
    ensures Less(Scaled(p, 0), Scaled(q, 0)) == Less(p, q)
  {
  }

  lemma By1(p: Word, q: Word)
    requires p < 256 && q < 256
    ensures Less(Scaled(p, 1), Scaled(q, 1)) == Less(p, q)
  {
  }

  lemma By2(p: Word, q: Word)
    requires p < 256 && q < 256
    ensures Less(Scaled(p, 2), Scaled(q, 2)) == Less(p, q)
  {
  }

  lemma By3(p: Word, q: Word)
    requires p < 256 && q < 256
    ensures Less(Scaled(p, 3), Scaled(q, 3)) == Less(p, q)
  {
  }

  lemma By4(p: Word, q: Word)
    requires p < 256 && q < 256
    ensures Less(Scaled(p, 4), Scaled(q, 4)) == Less(p, q)
  {
  }

  lemma By5(p: Word, q: Word)
    requires p < 256 && q < 256
    ensures Less(Scaled(p, 5), Scaled(q, 5)) == Less(p, q)
  {
  }

  lemma By6(p: Word, q: Word)
    requires p < 256 && q < 256
    ensures Less(Scaled(p, 6), Scaled(q, 6)) == Less(p, q)
  {
  }

  lemma By7(p: Word, q: Word)
    requires p < 256 && q < 256
    ensures Less(Scaled(p, 7), Scaled(q, 7)) == Less(p, q)
  {
  }

  // ---------- the library's own encoder ----------

  /** PRIGROUP of AIRCR. */
  function GroupOf(aircr: Word): Word { (aircr >> 8) & 7 }

  /** The byte `NVIC_Init` stores: the preemption value is shifted but not masked, and the byte register cuts it off. */
  function InitByte(aircr: Word, preempt: bv8, sub: bv8): (byte: Word)
    requires GroupOf(aircr) >= 3
    ensures byte <= 0xFF
  {
    var t := (0x700 - (aircr & 0x700)) >> 8;
    TmpPriority(aircr);
    (((preempt as Word << (4 - t)) | (sub as Word & (0x0F >> t))) << 4) & 0xFF
  }

  lemma TmpPriority(aircr: Word)
    requires GroupOf(aircr) >= 3
    ensures (0x700 - (aircr & 0x700)) >> 8 == 7 - GroupOf(aircr) && 7 - GroupOf(aircr) <= 4
  {
  }

  /** In the five groups the library offers, `NVIC_Init` stores what CMSIS would, for every pair of bytes. */
  lemma InitAgreesWithCmsis(aircr: Word, preempt: bv8, sub: bv8)
    requires GroupOf(aircr) >= 3
    ensures InitByte(aircr, preempt, sub) == Stored(Encode(GroupOf(aircr), preempt as Word, sub as Word, 4), 4)
  {
    TmpPriority(aircr);
    GroupIsSmall(aircr);
    FourBitWidths(GroupOf(aircr));
    ShiftedJoin(preempt as Word, sub as Word, 7 - GroupOf(aircr));
    hide GroupOf, Join, PreemptBits, SubBits, Stored;
  }

  lemma GroupIsSmall(aircr: Word)
    ensures GroupOf(aircr) <= 7
  {
  }

  lemma FourBitWidths(group: Word)
    requires 3 <= group <= 7
    ensures PreemptBits(group, 4) == 7 - group && SubBits(group, 4) == 4 - (7 - group)
  {
  }

  lemma ShiftedJoin(p: Word, s: Word, t: Word)
    requires t <= 4
    ensures (((p << (4 - t)) | (s & (0x0F >> t))) << 4) & 0xFF == Stored(Join(p, s, t, 4 - t), 4)
  {
  }

  // ---------- registers ----------

  const KEY: Word := 0x05FA_0000

  /** A write to AIRCR counts only with the key in its upper half. */
  function AfterAircr(aircr: Word, v: Word): Word {
    if v & 0xFFFF_0000 == 0x05FA_0000 then v & 0xFFFF else aircr
  }

  /** AIRCR as read: the upper half shows 0xFA05. */
  function ReadAircr(aircr: Word): Word { 0xFA05_0000 | (aircr & 0xFFFF) }

  /** What `NVIC_SetPriorityGrouping` writes. */
  function GroupingWord(read: Word, group: Word): Word {
    (read & !(0xFFFF_0000 | 0x700)) | KEY | ((group & 7) << 8)
  }

  lemma GroupingTakesEffect(aircr: Word, group: Word)
    ensures GroupingWord(ReadAircr(aircr), group) & 0xFFFF_0000 == 0x05FA_0000
    ensures GroupOf(AfterAircr(aircr, GroupingWord(ReadAircr(aircr), group))) == group & 7
    ensures AfterAircr(aircr, GroupingWord(ReadAircr(aircr), group)) & 0xF8FF == aircr & 0xF8FF
  {
  }

  /** The five masks of `NVIC_PriorityGroupConfig`; group 4 has four preemption bits. */
  predicate IsGroupMask(mask: Word) { mask == 0x700 || mask == 0x600 || mask == 0x500 || mask == 0x400 || mask == 0x300 }

  lemma GroupConfigTakesEffect(aircr: Word, mask: Word)
    requires IsGroupMask(mask)
    ensures GroupOf(AfterAircr(aircr, KEY | mask)) == mask >> 8 && mask >> 8 >= 3
    ensures AfterAircr(aircr, KEY | mask) & 0xF8FF == 0
  {
  }

  /** The enable bit of an external interrupt. */
  predicate IsEnabled(enabled: seq<Word>, irq: bv8)
    requires |enabled| == 8
  {
    Bit(enabled[(irq >> 5) as nat], (irq & 0x1F) as Word)
  }

  /** One bit of the eight enable words set or cleared. */
  function WithEnabled(enabled: seq<Word>, channel: bv8, on: bool): (r: seq<Word>)
    requires |enabled| == 8
    ensures |r| == 8
  {
    enabled[(channel >> 5) as nat := WithBit(enabled[(channel >> 5) as nat], (channel & 0x1F) as Word, on)]
  }

  /** Writing a one to a set-enable or clear-enable register changes one interrupt. */
  lemma EnableBits(enabled: seq<Word>, channel: bv8, on: bool)
    requires |enabled| == 8
    ensures forall irq: bv8 :: IsEnabled(WithEnabled(enabled, channel, on), irq) == if irq == channel then on else IsEnabled(enabled, irq)
  {
    hide Bit, WithBit;
    forall irq: bv8
      ensures IsEnabled(WithEnabled(enabled, channel, on), irq) == if irq == channel then on else IsEnabled(enabled, irq)
    {
      WithBitAt(enabled[(channel >> 5) as nat], (channel & 0x1F) as Word, on, (irq & 0x1F) as Word);
    }
  }

  lemma ChannelIs(channel: bv8)
    ensures channel as nat == 32 * (channel >> 5) as nat + (channel & 0x1F) as nat
  {
  }

  lemma SmallWords(b: bv8, w: Word)
    requires b < 32 && w < 32
    ensures w == b as Word <==> w as nat == b as nat
  {
  }

  /** Interrupt 32k + b has bit b of word k; the write changes the bit of the channel and no other. */
  lemma EnableWords(enabled: seq<Word>, channel: bv8, on: bool)
    requires |enabled| == 8
    ensures forall k: nat, b: Word :: k < 8 && b < 32 ==>
      Bit(WithEnabled(enabled, channel, on)[k], b) == if 32 * k + b as nat == channel as nat then on else Bit(enabled[k], b)
  {
    hide Bit, WithEnabled;
    forall k: nat, b: Word | k < 8 && b < 32
      ensures Bit(WithEnabled(enabled, channel, on)[k], b) == if 32 * k + b as nat == channel as nat then on else Bit(enabled[k], b)
    {
      EnableAt(enabled, channel, on, k, b);
    }
  }

  lemma EnableAt(enabled: seq<Word>, channel: bv8, on: bool, k: nat, b: Word)
    requires |enabled| == 8 && k < 8 && b < 32
    ensures Bit(WithEnabled(enabled, channel, on)[k], b) == if 32 * k + b as nat == channel as nat then on else Bit(enabled[k], b)
  {
    hide Bit, WithBit;
    BitOfChannel(channel, k, b);
    WithBitAt(enabled[(channel >> 5) as nat], (channel & 0x1F) as Word, on, b);
  }

  lemma BitOfChannel(channel: bv8, k: nat, b: Word)
    requires b < 32
    ensures 32 * k + b as nat == channel as nat <==> k == (channel >> 5) as nat && b == (channel & 0x1F) as Word
  {
    ChannelIs(channel);
    SmallWords(channel & 0x1F, b);
    WordIsSmall(b);
  }

  lemma WordIsSmall(b: Word)
    requires b < 32
    ensures b as nat < 32
  {
  }

  lemma NoneEnabled(enabled: seq<Word>)
    requires |enabled| == 8 && forall i :: 0 <= i < 8 ==> enabled[i] == 0
    ensures forall irq: bv8 :: !IsEnabled(enabled, irq)
  {
  }

  class Controller {
    var aircr: Word
    const ip: array<bv8>
    const shp: array<bv8>
    var enabled: seq<Word>

    ghost predicate Valid()
      reads this
    {
      ip.Length == 240 && shp.Length == 12 && ip != shp && |enabled| == 8
    }

    /** Reset: every priority zero, every interrupt disabled, group 0. */
    constructor ()
      ensures Valid() && fresh(ip) && fresh(shp) && GroupOf(aircr) == 0
      ensures (forall i :: 0 <= i < 240 ==> ip[i] == 0) && forall i :: 0 <= i < 12 ==> shp[i] == 0
      ensures forall irq: bv8 :: !IsEnabled(enabled, irq)
    {
      aircr := 0;
      ip := new bv8[240](_ => 0);
      shp := new bv8[12](_ => 0);
      enabled := [0, 0, 0, 0, 0, 0, 0, 0];
      new;
      NoneEnabled(enabled);
      hide IsEnabled;
    }

    method SetPriorityGrouping(group: Word)
      modifies this`aircr
      ensures GroupOf(aircr) == group & 7 && aircr & 0xF8FF == old(aircr) & 0xF8FF
    {
      GroupingTakesEffect(aircr, group);
      hide GroupOf, AfterAircr, GroupingWord, ReadAircr;
      aircr := AfterAircr(aircr, GroupingWord(ReadAircr(aircr), group));
    }

    /** Unlike the function above this one does not read AIRCR first, and clears its other low bits. */
    method PriorityGroupConfig(mask: Word)
      requires IsGroupMask(mask)
      modifies this`aircr
      ensures GroupOf(aircr) == mask >> 8 && GroupOf(aircr) >= 3 && aircr & 0xF8FF == 0
    {
      GroupConfigTakesEffect(aircr, mask);
      hide GroupOf, AfterAircr;
      aircr := AfterAircr(aircr, KEY | mask);
    }

    /** Core interrupts have negative numbers and their bytes in SHP; the three of highest priority have none. */
    method SetPriority(irq: int, priority: Word, n: Word)
      requires Valid() && -12 <= irq < 240 && 1 <= n <= 8
      modifies ip, shp
      ensures irq < 0 ==> shp[..] == old(shp[..])[irq + 12 := Stored(priority, n) as bv8] && ip[..] == old(ip[..])
      ensures irq >= 0 ==> ip[..] == old(ip[..])[irq := Stored(priority, n) as bv8] && shp[..] == old(shp[..])
    {
      if irq < 0 {
        shp[irq + 16 - 4] := Stored(priority, n) as bv8;
      } else {
        ip[irq] := Stored(priority, n) as bv8;
      }
    }

    /** The priority byte of an interrupt. */
    function ByteOf(irq: int): Word
      requires ip.Length == 240 && shp.Length == 12 && -12 <= irq < 240
      reads this, ip, shp
    {
      (if irq < 0 then shp[irq + 12] else ip[irq]) as Word
    }

    /**
     The answer has n bits, storing it again gives the bits the device implements, and it is the priority
     last stored, reduced to those bits.
     */
    method GetPriority(irq: int, n: Word) returns (priority: Word)
      requires Valid() && -12 <= irq < 240 && 1 <= n <= 8
      ensures Fits(priority, n)
      ensures Stored(priority, n) == Implemented(ByteOf(irq), n)
      ensures forall p: Word :: ByteOf(irq) == Stored(p, n) ==> priority == Low(p, n)
    {
      hide Loaded, Stored, Low, Fits, Implemented;
      if irq < 0 {
        priority := Loaded(shp[irq + 16 - 4] as Word, n);
      } else {
        priority := Loaded(ip[irq] as Word, n);
      }
      ByteIsSmall(if irq < 0 then shp[irq + 12] else ip[irq]);
      LoadedFits(ByteOf(irq), n);
      forall p: Word | ByteOf(irq) == Stored(p, n)
        ensures priority == Low(p, n)
      {
        LoadOfStore(p, n);
      }
    }

    /** The two calls in sequence: what is set is read back, reduced to the bits the device has. */
    method SetThenGet(irq: int, priority: Word, n: Word) returns (read: Word)
      requires Valid() && -12 <= irq < 240 && 1 <= n <= 8
      modifies ip, shp
      ensures read == Low(priority, n)
    {
      hide Stored, Low, Fits, Implemented;
      SetPriority(irq, priority, n);
      StoredByte(priority, n);
      assert ByteOf(irq) == Stored(priority, n);
      read := GetPriority(irq, n);
    }

    /** Enabling stores the priority byte CMSIS would and enables the one interrupt; disabling only disables it. */
    method Init(channel: bv8, preempt: bv8, sub: bv8, enable: bool)
      requires Valid() && channel < 240 && GroupOf(aircr) >= 3
      modifies this`enabled, ip
      ensures Valid()
      ensures forall irq: bv8 :: IsEnabled(enabled, irq) == if irq == channel then enable else IsEnabled(old(enabled), irq)
      ensures forall k: nat, b: Word :: k < 8 && b < 32 ==>
        Bit(enabled[k], b) == if 32 * k + b as nat == channel as nat then enable else Bit(old(enabled)[k], b)
      ensures ip[..] == if enable
        then old(ip[..])[channel as nat := Stored(Encode(GroupOf(aircr), preempt as Word, sub as Word, 4), 4) as bv8]
        else old(ip[..])
    {
      hide GroupOf, InitByte, Encode, Stored, IsEnabled, WithEnabled, Bit;
      if enable {
        InitAgreesWithCmsis(aircr, preempt, sub);
        ip[channel as nat] := InitByte(aircr, preempt, sub) as bv8;
      }
      EnableBits(enabled, channel, enable);
      EnableWords(enabled, channel, enable);
      enabled := WithEnabled(enabled, channel, enable);
    }
  }
}
