/**
 Acceptance filter banks of the CAN cell. A bank's identifiers, masks, scale, mode and FIFO
 may change only in filter initialisation mode while the bank is inactive (RM0008, section
 24.7.4); every register write is recorded so that this can be said of each of them.
 */
module CanFilter {
  import opened Bits

  const BANKS: Word := 14
  const FINIT: Word := 0

  /** The configuration structure; the 16-bit fields as words. */
  datatype Config = Config(number: Word, scale32: bool, list: bool, fifo1: bool, active: bool,
                           idHigh: Word, idLow: Word, maskHigh: Word, maskLow: Word) {
    predicate Valid() { number < BANKS && idHigh <= 0xFFFF && idLow <= 0xFFFF && maskHigh <= 0xFFFF && maskLow <= 0xFFFF }
  }

  datatype Pair = Pair(fr1: Word, fr2: Word)

  /** The filter registers: one bit a bank in four of them, two words a bank in `pairs`. */
  datatype Registers = Registers(fmr: Word, fm1r: Word, fs1r: Word, ffa1r: Word, fa1r: Word, pairs: seq<Pair>) {
    predicate Valid() { |pairs| == 14 }
    predicate InInit() { Bit(fmr, FINIT) }
    predicate Active(k: Word) requires k < BANKS { Bit(fa1r, k) }
  }

  /** Everything about a bank that is protected while it is active. */
  datatype Setup = Setup(scale32: bool, list: bool, fifo1: bool, pair: Pair)

  function SetupOf(r: Registers, k: Word): Setup
    requires k < BANKS && r.Valid()
  {
    Setup(Bit(r.fs1r, k), Bit(r.fm1r, k), Bit(r.ffa1r, k), r.pairs[k as nat])
  }

  datatype Write = Write(before: Registers, after: Registers)

  /** A write changes the setup of a bank only in initialisation mode and while that bank is inactive. */
  ghost predicate Legal(w: Write) {
    && w.before.Valid() && w.after.Valid()
    && forall k: Word :: k < BANKS && SetupOf(w.before, k) != SetupOf(w.after, k) ==> w.before.InInit() && !w.before.Active(k)
  }

  function Pack(high: Word, low: Word): Word {
    ((0xFFFF & high) << 16) | (0xFFFF & low)
  }

  function High(w: Word): Word { w >> 16 }

  function Low(w: Word): Word { w & 0xFFFF }

  /** Reads the structure's four fields back out of a bank, by the register map of RM0008, figure 237. */
  function Fields(scale32: bool, p: Pair): (Word, Word, Word, Word) {
    if scale32 then (High(p.fr1), Low(p.fr1), High(p.fr2), Low(p.fr2))
    else (Low(p.fr2), Low(p.fr1), High(p.fr2), High(p.fr1))
  }

  function PairOf(c: Config): Pair {
    if c.scale32 then Pair(Pack(c.idHigh, c.idLow), Pack(c.maskHigh, c.maskLow))
    else Pair(Pack(c.maskLow, c.idLow), Pack(c.maskHigh, c.idHigh))
  }

  lemma PackSplits(high: Word, low: Word)
    requires high <= 0xFFFF && low <= 0xFFFF
    ensures High(Pack(high, low)) == high && Low(Pack(high, low)) == low
  {
  }

  /** At both scales the two words decode to exactly the fields of the structure. */
  lemma PairDecodes(c: Config)
    requires c.Valid()
    ensures Fields(c.scale32, PairOf(c)) == (c.idHigh, c.idLow, c.maskHigh, c.maskLow)
  {
    PackSplits(c.idHigh, c.idLow);
    PackSplits(c.maskHigh, c.maskLow);
    PackSplits(c.maskLow, c.idLow);
    PackSplits(c.maskHigh, c.idHigh);
    hide Pack, High, Low;
  }

  /** The outcome of one call: the bank holds the structure, every other bank and every other bit of FMR is as before. */
  ghost predicate Configured(r: Registers, c: Config, r': Registers)
    requires r.Valid() && c.Valid()
  {
    && r'.Valid()
    && !r'.InInit()
    && (forall j: Word :: 1 <= j < 32 ==> Bit(r'.fmr, j) == Bit(r.fmr, j))
    && r'.Active(c.number) == c.active
    && SetupOf(r', c.number) == Setup(c.scale32, c.list, c.fifo1, PairOf(c))
    && Fields(Bit(r'.fs1r, c.number), r'.pairs[c.number as nat]) == (c.idHigh, c.idLow, c.maskHigh, c.maskLow)
    && forall k: Word :: k < BANKS && k != c.number ==> SetupOf(r', k) == SetupOf(r, k) && r'.Active(k) == r.Active(k)
  }

  ghost predicate Opened(r: Registers, n: Word, r': Registers)
    requires r.Valid() && n < BANKS
  {
    && r'.Valid() && r'.InInit() && !r'.Active(n)
    && (forall j: Word :: 1 <= j < 32 ==> Bit(r'.fmr, j) == Bit(r.fmr, j))
    && forall k: Word :: k < BANKS ==> SetupOf(r', k) == SetupOf(r, k) && (k != n ==> r'.Active(k) == r.Active(k))
  }

  /** Bank n has setup s, the others theirs. */
  ghost predicate Stepped(r: Registers, n: Word, s: Setup, r': Registers)
    requires r.Valid() && n < BANKS
  {
    r'.Valid() && SetupOf(r', n) == s && forall k: Word :: k < BANKS && k != n ==> SetupOf(r', k) == SetupOf(r, k)
  }

  ghost predicate Closed(r: Registers, c: Config, r': Registers)
    requires r.Valid() && c.Valid()
  {
    && r'.Valid() && !r'.InInit() && r'.Active(c.number) == c.active
    && (forall j: Word :: 1 <= j < 32 ==> Bit(r'.fmr, j) == Bit(r.fmr, j))
    && forall k: Word :: k < BANKS ==> SetupOf(r', k) == SetupOf(r, k) && (k != c.number ==> r'.Active(k) == r.Active(k))
  }

  lemma BitsMove(w: Word, n: Word, on: bool)
    requires n < 32
    ensures forall j: Word :: j < 32 ==> Bit(WithBit(w, n, on), j) == if j == n then on else Bit(w, j)
  {
    hide Bit, WithBit;
    forall j: Word | j < 32
      ensures Bit(WithBit(w, n, on), j) == if j == n then on else Bit(w, j)
    {
      WithBitAt(w, n, on, j);
    }
  }

  // One register write each, with the effect it has on the banks.

  function PutScale(r: Registers, n: Word, on: bool): Registers requires n < BANKS { r.(fs1r := WithBit(r.fs1r, n, on)) }
  function PutMode(r: Registers, n: Word, on: bool): Registers requires n < BANKS { r.(fm1r := WithBit(r.fm1r, n, on)) }
  function PutFifo(r: Registers, n: Word, on: bool): Registers requires n < BANKS { r.(ffa1r := WithBit(r.ffa1r, n, on)) }

  function PutFirst(r: Registers, n: Word, v: Word): Registers
    requires r.Valid() && n < BANKS
  {
    r.(pairs := r.pairs[n as nat := r.pairs[n as nat].(fr1 := v)])
  }

  function PutSecond(r: Registers, n: Word, v: Word): Registers
    requires r.Valid() && n < BANKS
  {
    r.(pairs := r.pairs[n as nat := r.pairs[n as nat].(fr2 := v)])
  }

  /** A write that gives bank n, and only bank n, a new setup. */
  ghost predicate Moves(r: Registers, n: Word, s: Setup, r': Registers)
    requires r.Valid() && n < BANKS
  {
    Stepped(r, n, s, r') && r'.fmr == r.fmr && r'.fa1r == r.fa1r
  }

  lemma ScaleMoves(r: Registers, n: Word, on: bool)
    requires r.Valid() && n < BANKS
    ensures Moves(r, n, SetupOf(r, n).(scale32 := on), PutScale(r, n, on))
  {
    hide Bit, WithBit;
    BitsMove(r.fs1r, n, on);
  }

  lemma ModeMoves(r: Registers, n: Word, on: bool)
    requires r.Valid() && n < BANKS
    ensures Moves(r, n, SetupOf(r, n).(list := on), PutMode(r, n, on))
  {
    hide Bit, WithBit;
    BitsMove(r.fm1r, n, on);
  }

  lemma FifoMoves(r: Registers, n: Word, on: bool)
    requires r.Valid() && n < BANKS
    ensures Moves(r, n, SetupOf(r, n).(fifo1 := on), PutFifo(r, n, on))
  {
    hide Bit, WithBit;
    BitsMove(r.ffa1r, n, on);
  }

  lemma FirstMoves(r: Registers, n: Word, v: Word)
    requires r.Valid() && n < BANKS
    ensures Moves(r, n, SetupOf(r, n).(pair := r.pairs[n as nat].(fr1 := v)), PutFirst(r, n, v))
  {
    hide Bit;
  }

  lemma SecondMoves(r: Registers, n: Word, v: Word)
    requires r.Valid() && n < BANKS
    ensures Moves(r, n, SetupOf(r, n).(pair := r.pairs[n as nat].(fr2 := v)), PutSecond(r, n, v))
  {
    hide Bit;
  }

  lemma NoMove(r: Registers, n: Word)
    requires r.Valid() && n < BANKS
    ensures Moves(r, n, SetupOf(r, n), r)
  {
  }

  lemma MovedSetup(r: Registers, n: Word, s: Setup, r': Registers)
    requires r.Valid() && n < BANKS && Moves(r, n, s, r')
    ensures r'.Valid() && SetupOf(r', n) == s && r'.pairs[n as nat] == s.pair
  {
  }

  lemma MovesLegal(r: Registers, n: Word, s: Setup, r': Registers)
    requires r.Valid() && n < BANKS && Moves(r, n, s, r') && r.InInit() && !r.Active(n)
    ensures Legal(Write(r, r'))
  {
    hide Bit;
  }

  lemma MovesCompose(r: Registers, n: Word, s: Setup, r': Registers, s': Setup, r'': Registers)
    requires r.Valid() && n < BANKS && Moves(r, n, s, r') && Moves(r', n, s', r'')
    ensures Moves(r, n, s', r'')
  {
    hide Bit;
  }

  /** Writing the init bit or the activation bits changes no bank's setup. */
  lemma SwitchLegal(r: Registers, fmr: Word, fa1r: Word)
    requires r.Valid()
    ensures Legal(Write(r, r.(fmr := fmr, fa1r := fa1r)))
  {
    hide Bit;
  }

  lemma Opens(r: Registers, n: Word)
    requires r.Valid() && n < BANKS
    ensures Opened(r, n, r.(fmr := WithBit(r.fmr, FINIT, true), fa1r := WithBit(r.fa1r, n, false)))
  {
    hide Bit, WithBit;
    BitsMove(r.fmr, FINIT, true);
    BitsMove(r.fa1r, n, false);
  }

  lemma Closes(start: Registers, c: Config, r: Registers)
    requires start.Valid() && c.Valid() && !start.Active(c.number)
    requires r == if c.active then start.(fa1r := WithBit(start.fa1r, c.number, true)) else start
    ensures var r' := r.(fmr := WithBit(r.fmr, FINIT, false)); Legal(Write(r, r')) && Closed(start, c, r')
  {
    hide Bit, WithBit;
    BitsMove(start.fa1r, c.number, true);
    BitsMove(r.fmr, FINIT, false);
  }

  lemma StagesConfigure(r0: Registers, r1: Registers, r2: Registers, r3: Registers, r4: Registers, c: Config)
    requires r0.Valid() && c.Valid() && Opened(r0, c.number, r1)
    requires Moves(r1, c.number, SetupOf(r1, c.number).(scale32 := c.scale32, pair := PairOf(c)), r2)
    requires Moves(r2, c.number, SetupOf(r2, c.number).(list := c.list, fifo1 := c.fifo1), r3)
    requires Closed(r3, c, r4)
    ensures Configured(r0, c, r4)
  {
    hide Bit, Pack, Fields;
    PairDecodes(c);
    forall k: Word | k < BANKS && k != c.number
      ensures SetupOf(r4, k) == SetupOf(r0, k) && r4.Active(k) == r0.Active(k)
    {
      assert SetupOf(r4, k) == SetupOf(r3, k) && SetupOf(r3, k) == SetupOf(r2, k) && SetupOf(r2, k) == SetupOf(r1, k);
    }
  }

  /** States linked by calls: each call takes one state to the next. */
  ghost predicate Run(states: seq<Registers>, calls: seq<Config>) {
    && |states| == |calls| + 1
    && (forall i :: 0 <= i < |states| ==> states[i].Valid())
    && forall i :: 0 <= i < |calls| ==> calls[i].Valid() && Configured(states[i], calls[i], states[i + 1])
  }

  /** In every run, a bank is as the last call for it left it, whatever calls for other banks came after. */
  lemma {:induction false} LastCallWins(states: seq<Registers>, calls: seq<Config>, i: nat)
    requires Run(states, calls) && i < |calls|
    requires forall j :: i < j < |calls| ==> calls[j].number != calls[i].number
    ensures var c, r := calls[i], states[|calls|];
      SetupOf(r, c.number) == Setup(c.scale32, c.list, c.fifo1, PairOf(c)) && r.Active(c.number) == c.active
    decreases |calls|
  {
    hide Bit, SetupOf, PairOf, Fields;
    var n := |calls| - 1;
    assert calls[n].Valid() && Configured(states[n], calls[n], states[n + 1]);
    if i < n {
      LastCallWins(states[..n + 1], calls[..n], i);
    }
  }

  /** The log and the registers when a call begins. */
  datatype Start = Start(writes: seq<Write>, regs: Registers)

  class Filters {
    var regs: Registers
    ghost var writes: seq<Write>

    /** Reset: every bank inactive and filter initialisation mode on; the banks' words are not defined. */
    constructor (pairs: seq<Pair>)
      requires |pairs| == 14
      ensures regs.Valid() && regs.InInit() && AllLegal(Here())
      ensures forall k: Word :: k < BANKS ==> !regs.Active(k)
    {
      regs := Registers(0x2A1C_0E01, 0, 0, 0, 0, pairs);
      writes := [];
    }

    ghost function Here(): Start
      reads this
    {
      Start(writes, regs)
    }

    /** The log goes on from `start` without a gap, and every write in it is legal. */
    ghost predicate AllLegal(start: Start)
      reads this
    {
      var n := |start.writes|;
      && regs.Valid() && n <= |writes| && writes[..n] == start.writes
      && (if |writes| == n then regs == start.regs
          else (writes[n].before == start.regs && writes[|writes| - 1].after == regs))
      && (forall k :: n < k < |writes| ==> writes[k].before == writes[k - 1].after)
      && forall k :: n <= k < |writes| ==> Legal(writes[k])
    }

    method Put(next: Registers, ghost origin: Start)
      requires AllLegal(origin) && Legal(Write(regs, next))
      modifies this
      ensures AllLegal(origin) && regs == next
    {
      assert next.Valid();
      hide Legal;
      writes := writes + [Write(regs, next)];
      regs := next;
    }

    /** Initialisation mode on, bank off. */
    method Enter(n: Word, ghost origin: Start)
      requires n < BANKS && AllLegal(origin)
      modifies this
      ensures AllLegal(origin) && Opened(old(regs), n, regs)
    {
      assert regs.Valid();
      hide Bit, WithBit, Legal, AllLegal, Opened;
      ghost var r := regs;
      SwitchLegal(r, WithBit(r.fmr, FINIT, true), r.fa1r);
      Put(regs.(fmr := WithBit(regs.fmr, FINIT, true)), origin);
      SwitchLegal(regs, regs.fmr, WithBit(regs.fa1r, n, false));
      Put(regs.(fa1r := WithBit(regs.fa1r, n, false)), origin);
      Opens(r, n);
    }

    /** One legal write of bank n on the way from `start`. */
    method Advance(next: Registers, n: Word, ghost s: Setup, ghost s': Setup, ghost start: Registers, ghost origin: Start)
      requires n < BANKS && AllLegal(origin) && start.Valid() && start.InInit() && !start.Active(n)
      requires Moves(start, n, s, regs) && Moves(regs, n, s', next)
      modifies this
      ensures AllLegal(origin) && regs == next && Moves(start, n, s', regs)
    {
      hide Bit, Legal, SetupOf;
      MovesLegal(regs, n, s', next);
      MovesCompose(start, n, s, regs, s', next);
      Put(next, origin);
    }

    /** Scale bit first, then the two words of the bank. */
    method WriteScale(c: Config, ghost origin: Start)
      requires c.Valid() && AllLegal(origin) && regs.InInit() && !regs.Active(c.number)
      modifies this
      ensures AllLegal(origin)
      ensures Moves(old(regs), c.number, SetupOf(old(regs), c.number).(scale32 := c.scale32, pair := PairOf(c)), regs)
    {
      var n := c.number;
      ghost var start, s0 := regs, SetupOf(regs, n);
      hide Bit, WithBit, Pack, Moves, AllLegal, SetupOf, PutScale, PutFirst, PutSecond;
      NoMove(regs, n);
      ScaleMoves(regs, n, c.scale32);
      ghost var s1 := s0.(scale32 := c.scale32);
      Advance(PutScale(regs, n, c.scale32), n, s0, s1, start, origin);
      var p := PairOf(c);
      MovedSetup(start, n, s1, regs);
      FirstMoves(regs, n, p.fr1);
      ghost var s2 := s1.(pair := s1.pair.(fr1 := p.fr1));
      Advance(PutFirst(regs, n, p.fr1), n, s1, s2, start, origin);
      MovedSetup(start, n, s2, regs);
      SecondMoves(regs, n, p.fr2);
      Advance(PutSecond(regs, n, p.fr2), n, s2, s2.(pair := s2.pair.(fr2 := p.fr2)), start, origin);
    }

    method WriteModeAndFifo(c: Config, ghost origin: Start)
      requires c.Valid() && AllLegal(origin) && regs.InInit() && !regs.Active(c.number)
      modifies this
      ensures AllLegal(origin)
      ensures Moves(old(regs), c.number, SetupOf(old(regs), c.number).(list := c.list, fifo1 := c.fifo1), regs)
    {
      var n := c.number;
      ghost var start, s0 := regs, SetupOf(regs, n);
      hide Bit, WithBit, Moves, AllLegal, SetupOf, PutMode, PutFifo;
      NoMove(regs, n);
      ModeMoves(regs, n, c.list);
      ghost var s1 := s0.(list := c.list);
      Advance(PutMode(regs, n, c.list), n, s0, s1, start, origin);
      MovedSetup(start, n, s1, regs);
      FifoMoves(regs, n, c.fifo1);
      Advance(PutFifo(regs, n, c.fifo1), n, s1, s1.(fifo1 := c.fifo1), start, origin);
    }

    /** Bank on if asked for, initialisation mode off. */
    method Leave(c: Config, ghost origin: Start)
      requires c.Valid() && AllLegal(origin) && !regs.Active(c.number)
      modifies this
      ensures AllLegal(origin) && Closed(old(regs), c, regs)
    {
      assert regs.Valid();
      hide Bit, WithBit, Closed, Legal, AllLegal;
      ghost var start := regs;
      if c.active {
        SwitchLegal(regs, regs.fmr, WithBit(regs.fa1r, c.number, true));
        Put(regs.(fa1r := WithBit(regs.fa1r, c.number, true)), origin);
      }
      Closes(start, c, regs);
      Put(regs.(fmr := WithBit(regs.fmr, FINIT, false)), origin);
    }

    /** Configures one bank. Every register write on the way is legal, and no other bank changes. */
    method FilterInit(c: Config)
      requires regs.Valid() && c.Valid()
      modifies this
      ensures AllLegal(old(Here()))
      ensures Configured(old(regs), c, regs)
    {
      ghost var origin := Here();
      assert AllLegal(origin);
      hide Bit, AllLegal, PairOf;
      ghost var r0 := regs;
      Enter(c.number, origin);
      ghost var r1 := regs;
      WriteScale(c, origin);
      ghost var r2 := regs;
      WriteModeAndFifo(c, origin);
      ghost var r3 := regs;
      Leave(c, origin);
      StagesConfigure(r0, r1, r2, r3, regs, c);
    }
  }
}
