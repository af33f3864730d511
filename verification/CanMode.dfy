/**
 Operating modes of the CAN cell: mode requests, wake-up and initialisation wait for the
 hardware's acknowledgement in MSR with a bounded number of polls. `msr(k)` is what the
 k-th read of MSR returns, and it may be anything.
 */
module CanMode {
  import opened Bits

  const TIMEOUT: nat := 0xFFFF
  const INRQ: Word := 1
  const SLEEP: Word := 2
  const INAK: Word := 1
  const SLAK: Word := 2

  // ---------- bounded polling ----------

  /** The first of the reads from `from` on that `ack` accepts, or `limit` if none of the first `limit` does. */
  function FirstAck(ack: Word -> bool, msr: nat -> Word, from: nat, limit: nat): nat
    decreases limit, from
  {
    if limit == 0 || ack(msr(from)) then 0 else 1 + FirstAck(ack, msr, from + 1, limit - 1)
  }

  lemma {:induction false} FirstAckIsFirst(ack: Word -> bool, msr: nat -> Word, from: nat, limit: nat)
    ensures var n := FirstAck(ack, msr, from, limit);
      && n <= limit
      && (n < limit ==> ack(msr(from + n)))
      && forall k: nat :: from <= k < from + n ==> !ack(msr(k))
    decreases limit
  {
    if limit != 0 && !ack(msr(from)) {
      FirstAckIsFirst(ack, msr, from + 1, limit - 1);
    }
  }

  /**
   Hardware that acknowledges at some read and keeps doing so: the check after the polling
   loop succeeds exactly when that read is among the first 65537.
   */
  lemma AcknowledgedInTime(ack: Word -> bool, msr: nat -> Word, from: nat, at: nat)
    requires from <= at && forall k: nat :: from <= k ==> (ack(msr(k)) <==> at <= k)
    ensures ack(msr(from + FirstAck(ack, msr, from, TIMEOUT) + 1)) <==> at <= from + 65536
  {
    FirstAckIsFirst(ack, msr, from, TIMEOUT);
    assert at <= from + TIMEOUT ==> ack(msr(at));
  }

  /** The polling loop shared by all mode changes; returns how many reads of MSR have been made. */
  method Await(ack: Word -> bool, msr: nat -> Word, from: nat) returns (reads_: nat)
    ensures reads_ == from + FirstAck(ack, msr, from, TIMEOUT) + 1
  {
    var timeout := TIMEOUT;
    reads_ := from + 1;
    while !ack(msr(reads_ - 1)) && timeout != 0
      invariant 0 <= timeout <= TIMEOUT && reads_ == from + (TIMEOUT - timeout) + 1
      invariant FirstAck(ack, msr, from, TIMEOUT) == (TIMEOUT - timeout) + FirstAck(ack, msr, reads_ - 1, timeout)
      decreases timeout
    {
      timeout := timeout - 1;
      reads_ := reads_ + 1;
    }
  }

  /**
   `n` reads of MSR from `from` on show something else than `wanted` under the mask, and the
   next one shows it unless those were 65535.
   */
  ghost predicate Stops(msr: nat -> Word, from: nat, mask: Word, wanted: Word, n: nat) {
    && n <= 65535
    && (forall k: nat :: from <= k < from + n ==> msr(k) & mask != wanted)
    && (n < 65535 ==> msr(from + n) & mask == wanted)
  }

  /** What is polled for comes after exactly one number of reads. */
  lemma StopsOnce(msr: nat -> Word, from: nat, mask: Word, wanted: Word, n: nat, m: nat)
    requires Stops(msr, from, mask, wanted, n) && Stops(msr, from, mask, wanted, m)
    ensures n == m
  {
    var a: nat, b: nat := from + n, from + m;
    assert n < m ==> msr(a) & mask != wanted;
    assert m < n ==> msr(b) & mask != wanted;
  }

  /** The test is a comparison under a mask. */
  ghost predicate Tests(ack: Word -> bool, mask: Word, wanted: Word) {
    forall v :: ack(v) <==> v & mask == wanted
  }

  lemma FirstAckStops(ack: Word -> bool, msr: nat -> Word, from: nat, mask: Word, wanted: Word)
    requires Tests(ack, mask, wanted)
    ensures Stops(msr, from, mask, wanted, FirstAck(ack, msr, from, TIMEOUT))
  {
    FirstAckIsFirst(ack, msr, from, TIMEOUT);
    hide FirstAck;
  }

  /** Waits and then checks with one more read: at most 65537 reads, whatever they show. */
  method Poll(ack: Word -> bool, msr: nat -> Word, from: nat, ghost mask: Word, ghost wanted: Word)
    returns (seen: bool, reads_: nat)
    requires Tests(ack, mask, wanted)
    ensures from + 2 <= reads_ <= from + 65537
    ensures Stops(msr, from, mask, wanted, reads_ - from - 2)
    ensures seen <==> msr(reads_ - 1) & mask == wanted
  {
    hide FirstAck, Stops;
    FirstAckStops(ack, msr, from, mask, wanted);
    FirstAckIsFirst(ack, msr, from, TIMEOUT);
    reads_ := Await(ack, msr, from);
    seen := ack(msr(reads_));
    reads_ := reads_ + 1;
  }

  // ---------- modes ----------

  const INITIALIZATION: nat := 0
  const NORMAL: nat := 1
  const SLEEPING: nat := 2

  /** SLEEP and INRQ for a requested mode. */
  function RequestBits(mode: nat): Word {
    if mode == INITIALIZATION then INRQ else if mode == NORMAL then 0 else SLEEP
  }

  /** SLAK and INAK once the hardware is in that mode. */
  function Shows(mode: nat): Word -> bool {
    (v: Word) => v & 3 == RequestBits(mode)
  }

  /** INAK is bit 0 of MSR and SLAK is bit 1. */
  lemma ShowsTests()
    ensures Tests(Shows(INITIALIZATION), 3, 1) && Tests(Shows(NORMAL), 3, 0) && Tests(Shows(SLEEPING), 3, 2)
  {
  }

  function AwakeShown(): Word -> bool { (v: Word) => v & SLAK != SLAK }

  lemma AwakeTests()
    ensures Tests(AwakeShown(), 2, 0)
  {
  }

  /** MSR never shows two modes at once. */
  lemma OneModeAtATime(v: Word, m: nat, n: nat)
    requires m <= 2 && n <= 2 && Shows(m)(v) && Shows(n)(v)
    ensures m == n
  {
  }

  lemma RequestInitialization(mcr: Word)
    ensures ((mcr & !SLEEP) | INRQ) & 3 == 1
    ensures ((mcr & !SLEEP) | INRQ) & !3 == mcr & !3
  {
  }

  lemma RequestNormal(mcr: Word)
    ensures (mcr & !(SLEEP | INRQ)) & 3 == 0
    ensures (mcr & !(SLEEP | INRQ)) & !3 == mcr & !3
  {
  }

  lemma RequestSleep(mcr: Word)
    ensures ((mcr & !INRQ) | SLEEP) & 3 == 2
    ensures ((mcr & !INRQ) | SLEEP) & !3 == mcr & !3
  {
  }

  // ---------- bit timing ----------

  datatype Timing = Timing(mode: Word, sjw: Word, bs1: Word, bs2: Word, prescaler: Word) {
    predicate Valid() { mode <= 3 && sjw <= 3 && bs1 <= 15 && bs2 <= 7 && 1 <= prescaler <= 1024 }
  }

  function EncodeTiming(t: Timing): Word {
    (t.mode << 30) | (t.sjw << 24) | (t.bs1 << 16) | (t.bs2 << 20) | (t.prescaler - 1)
  }

  /** BTR by the register map of RM0008, section 24.9.2. */
  function DecodeTiming(btr: Word): Timing {
    Timing(btr >> 30, (btr >> 24) & 3, (btr >> 16) & 0xF, (btr >> 20) & 7, (btr & 0x3FF) + 1)
  }

  lemma TimingRoundTrip(t: Timing)
    requires t.Valid()
    ensures DecodeTiming(EncodeTiming(t)) == t
  {
  }

  /** Different settings never share a BTR value. */
  lemma TimingInjective(t: Timing, u: Timing)
    requires t.Valid() && u.Valid() && EncodeTiming(t) == EncodeTiming(u)
    ensures t == u
  {
    TimingRoundTrip(t);
    TimingRoundTrip(u);
    hide EncodeTiming, DecodeTiming;
  }

  // ---------- initialisation ----------

  datatype Options = Options(ttcm: bool, abom: bool, awum: bool, nart: bool, rflm: bool, txfp: bool)

  /** The six option bits MCR holds, by the register map of RM0008, section 24.9.2. */
  function OptionsOf(mcr: Word): Options {
    Options(mcr & 0x80 != 0, mcr & 0x40 != 0, mcr & 0x20 != 0, mcr & 0x10 != 0, mcr & 8 != 0, mcr & 4 != 0)
  }

  function WithOptions(mcr: Word, o: Options): Word {
    WithBit(WithBit(WithBit(WithBit(WithBit(WithBit(mcr, 7, o.ttcm), 6, o.abom), 5, o.awum), 4, o.nart), 3, o.rflm), 2, o.txfp)
  }

  /** Each bit of MCR after the six read-modify-writes of the options. */
  lemma OptionsBits(mcr: Word, o: Options, j: Word)
    requires j < 32
    ensures Bit(WithOptions(mcr, o), j) ==
      if j == 7 then o.ttcm else if j == 6 then o.abom else if j == 5 then o.awum
      else if j == 4 then o.nart else if j == 3 then o.rflm else if j == 2 then o.txfp else Bit(mcr, j)
  {
    hide WithBit, Bit;
    var m1 := WithBit(mcr, 7, o.ttcm);
    var m2 := WithBit(m1, 6, o.abom);
    var m3 := WithBit(m2, 5, o.awum);
    var m4 := WithBit(m3, 4, o.nart);
    var m5 := WithBit(m4, 3, o.rflm);
    WithBitAt(mcr, 7, o.ttcm, j);
    WithBitAt(m1, 6, o.abom, j);
    WithBitAt(m2, 5, o.awum, j);
    WithBitAt(m3, 4, o.nart, j);
    WithBitAt(m4, 3, o.rflm, j);
    WithBitAt(m5, 2, o.txfp, j);
  }

  lemma OptionMasks(v: Word)
    ensures OptionsOf(v) == Options(Bit(v, 7), Bit(v, 6), Bit(v, 5), Bit(v, 4), Bit(v, 3), Bit(v, 2))
  {
  }

  /** MCR without the option bits. */
  function Beside(v: Word): Word { v & 0xFFFF_FF03 }

  /** The request for initialisation, INRQ, is up. */
  predicate Asks(mcr: Word) { mcr & 1 == 1 }

  lemma BesideSet(v: Word, k: Word)
    requires 2 <= k <= 7
    ensures Beside(SetBit(v, k)) == Beside(v)
    ensures Beside(ClearBit(v, k)) == Beside(v)
  {
  }

  lemma AsksBeside(v: Word)
    ensures Asks(Beside(v)) == Asks(v)
  {
  }

  lemma BesideStays(v: Word, k: Word, on: bool)
    requires 2 <= k <= 7
    ensures Beside(WithBit(v, k, on)) == Beside(v) && Asks(WithBit(v, k, on)) == Asks(v)
  {
    hide SetBit, ClearBit, Beside, Asks;
    BesideSet(v, k);
    AsksBeside(v);
    AsksBeside(WithBit(v, k, on));
  }

  /** The options are set as asked, and no other bit of MCR changes. */
  lemma OptionsSet(mcr: Word, o: Options)
    ensures OptionsOf(WithOptions(mcr, o)) == o
    ensures WithOptions(mcr, o) & 0xFFFF_FF03 == mcr & 0xFFFF_FF03
  {
    OptionMasks(WithOptions(mcr, o));
    OptionsBeside(mcr, o);
    hide WithOptions, Bit, OptionsOf;
    OptionsBits(mcr, o, 2);
    OptionsBits(mcr, o, 3);
    OptionsBits(mcr, o, 4);
    OptionsBits(mcr, o, 5);
    OptionsBits(mcr, o, 6);
    OptionsBits(mcr, o, 7);
  }

  lemma OptionsBeside(mcr: Word, o: Options)
    ensures Beside(WithOptions(mcr, o)) == Beside(mcr)
  {
    hide WithBit, Beside, Asks;
    var m1 := WithBit(mcr, 7, o.ttcm);
    var m2 := WithBit(m1, 6, o.abom);
    var m3 := WithBit(m2, 5, o.awum);
    var m4 := WithBit(m3, 4, o.nart);
    var m5 := WithBit(m4, 3, o.rflm);
    BesideStays(mcr, 7, o.ttcm);
    BesideStays(m1, 6, o.abom);
    BesideStays(m2, 5, o.awum);
    BesideStays(m3, 4, o.nart);
    BesideStays(m4, 3, o.rflm);
    BesideStays(m5, 2, o.txfp);
  }

  function Awake(mcr: Word): Word { mcr & !SLEEP }
  function WithRequest(mcr: Word): Word { mcr | INRQ }
  function WithoutRequest(mcr: Word): Word { mcr & !INRQ }

  predicate SameOptions(v: Word, w: Word) { v & 0xFC == w & 0xFC }

  function Entered(): Word -> bool { (v: Word) => v & INAK == INAK }

  function Left(): Word -> bool { (v: Word) => v & INAK != INAK }

  /** What the two waits of the initialisation look for is bit 0 of MSR, up or down. */
  lemma EnteredLeftTest()
    ensures Tests(Entered(), 1, 1) && Tests(Left(), 1, 0)
  {
  }

  /** INAK as the last read of MSR showed it. */
  predicate InInit(v: Word) { v & 1 == 1 }

  /** Initialisation asked for: INRQ up, SLEEP down, the rest of MCR as before. */
  predicate AsksInit(mcr: Word, before: Word) { mcr & 3 == 1 && mcr & !3 == before & !3 }

  lemma RequestAsks(mcr: Word)
    ensures AsksInit(WithRequest(Awake(mcr)), mcr) && Asks(WithRequest(Awake(mcr)))
    ensures SameOptions(Awake(mcr), mcr) && SameOptions(WithRequest(Awake(mcr)), Awake(mcr))
  {
  }

  lemma WithoutRequestKeeps(mcr: Word)
    ensures SameOptions(WithoutRequest(mcr), mcr)
  {
  }

  /** MCR after a completed initialisation: no request left, the options as asked, everything above as before. */
  predicate Initialised(mcr: Word, o: Options, before: Word) {
    mcr & 3 == 0 && OptionsOf(mcr) == o && mcr & 0xFFFF_FF00 == before & 0xFFFF_FF00
  }

  lemma InitLeaves(before: Word, asked: Word, o: Options)
    requires AsksInit(asked, before)
    ensures Initialised(WithoutRequest(WithOptions(asked, o)), o, before)
  {
    OptionsSet(asked, o);
    LowBits(before, asked, WithOptions(asked, o));
    hide WithOptions, AsksInit, OptionsOf, WithoutRequest;
  }

  lemma LowBits(before: Word, asked: Word, mcr: Word)
    requires AsksInit(asked, before) && mcr & 0xFFFF_FF03 == asked & 0xFFFF_FF03
    ensures WithoutRequest(mcr) & 3 == 0 && WithoutRequest(mcr) & 0xFFFF_FF00 == before & 0xFFFF_FF00
    ensures OptionsOf(WithoutRequest(mcr)) == OptionsOf(mcr)
  {
  }

  /** One register write: how many reads of MSR came before it, and the two registers before and after. */
  datatype Write = Write(reads_: nat, mcr: Word, btr: Word, mcr': Word, btr': Word) {
    predicate Configures() { btr != btr' || !SameOptions(mcr, mcr') }

    /** Options and bit timing only change with INRQ (bit 0 of MCR) up and after a read that showed INAK (bit 0 of MSR). */
    predicate Legal(msr: nat -> Word) {
      Configures() ==> reads_ > 0 && msr(reads_ - 1) & 1 == 1 && mcr & 1 == 1
    }
  }

  /** More writes were logged, each with that many reads before it. */
  ghost predicate Extends(before: seq<Write>, after: seq<Write>, reads_: nat) {
    && |before| <= |after| && after[..|before|] == before
    && forall k :: |before| <= k < |after| ==> after[k].reads_ == reads_
  }

  lemma ExtendsOn(a: seq<Write>, b: seq<Write>, c: seq<Write>, reads_: nat)
    requires Extends(a, b, reads_) && Extends(b, c, reads_)
    ensures Extends(a, c, reads_)
  {
    assert c[..|a|] == c[..|b|][..|a|];
    forall k | |a| <= k < |c| ensures c[k].reads_ == reads_ {
      assert k < |b| ==> c[..|b|][k] == b[k];
    }
  }

  /** The log and the registers when a call begins. */
  datatype Start = Start(writes: seq<Write>, mcr: Word, btr: Word)

  /**
   The first two writes since `start` are the only ones before MSR is read; they leave INRQ
   up and SLEEP down, and every other bit of MCR as it was.
   */
  ghost predicate AskedFirst(start: Start, writes: seq<Write>) {
    var n := |start.writes|;
    && n + 2 <= |writes| && writes[..n] == start.writes
    && writes[n].reads_ == 0 && writes[n + 1].reads_ == 0
    && writes[n + 1].mcr' & 3 == 1 && writes[n + 1].mcr' & !3 == start.mcr & !3
    && forall k :: n + 2 <= k < |writes| ==> writes[k].reads_ > 0
  }

  lemma AskedFirstOn(start: Start, a: seq<Write>, b: seq<Write>, reads_: nat)
    requires AskedFirst(start, a) && Extends(a, b, reads_) && reads_ > 0
    ensures AskedFirst(start, b)
  {
    var n := |start.writes|;
    assert b[n] == a[n] && b[n + 1] == a[n + 1];
    assert b[..n] == b[..|a|][..n];
    forall k | n + 2 <= k < |b| ensures b[k].reads_ > 0 {
      assert k < |a| ==> b[..|a|][k] == a[k];
    }
  }

  class ModeControl {
    var mcr: Word
    var btr: Word
    ghost var writes: seq<Write>

    /** Reset: sleep mode. */
    constructor (msr: nat -> Word)
      ensures mcr == 0x1_0002 && DecodeTiming(btr) == Timing(0, 1, 3, 2, 1)
      ensures ConfiguredOnlyInInit(Here(), msr)
    {
      mcr, btr := 0x1_0002, 0x0123_0000;
      writes := [];
    }

    ghost function Here(): Start
      reads this
    {
      Start(writes, mcr, btr)
    }

    /** The log goes on from `start` without a gap: each write begins where the one before it ended. */
    ghost predicate Logged(start: Start)
      reads this
    {
      var n := |start.writes|;
      && n <= |writes| && writes[..n] == start.writes
      && (if |writes| == n then (mcr == start.mcr && btr == start.btr)
          else (writes[n].mcr == start.mcr && writes[n].btr == start.btr
                && writes[|writes| - 1].mcr' == mcr && writes[|writes| - 1].btr' == btr))
      && forall k :: n < k < |writes| ==> writes[k].mcr == writes[k - 1].mcr' && writes[k].btr == writes[k - 1].btr'
    }

    /** Every write since `start` that touches an option or the bit timing came with INRQ up, right after a read that showed INAK. */
    ghost predicate ConfiguredOnlyInInit(start: Start, msr: nat -> Word)
      reads this
    {
      && Logged(start)
      && forall k :: |start.writes| <= k < |writes| ==> writes[k].Legal(msr)
    }

    method WriteMcr(v: Word, reads_: nat)
      modifies this`mcr, this`writes
      ensures mcr == v && writes == old(writes) + [Write(reads_, old(mcr), btr, v, btr)]
    {
      writes := writes + [Write(reads_, mcr, btr, v, btr)];
      mcr := v;
    }

    method WriteBtr(v: Word, reads_: nat)
      modifies this`btr, this`writes
      ensures btr == v && writes == old(writes) + [Write(reads_, mcr, old(btr), mcr, v)]
    {
      writes := writes + [Write(reads_, mcr, btr, mcr, v)];
      btr := v;
    }

    /** Mode 0: INRQ asks, INAK alone answers. */
    method EnterInitialization(msr: nat -> Word) returns (success: bool, reads_: nat)
      modifies this`mcr, this`writes
      ensures mcr & 3 == 1 && mcr & !3 == old(mcr) & !3
      ensures 2 <= reads_ <= 65537 && Stops(msr, 0, 3, 1, reads_ - 2)
      ensures success <==> msr(reads_ - 1) & 3 == 1
    {
      hide Shows, Tests, Stops, RequestBits, FirstAck;
      ShowsTests();
      RequestInitialization(mcr);
      WriteMcr((mcr & !SLEEP) | INRQ, 0);
      success, reads_ := Poll(Shows(INITIALIZATION), msr, 0, 3, 1);
    }

    /** Mode 1: neither bit asks, neither bit answers. */
    method EnterNormal(msr: nat -> Word) returns (success: bool, reads_: nat)
      modifies this`mcr, this`writes
      ensures mcr & 3 == 0 && mcr & !3 == old(mcr) & !3
      ensures 2 <= reads_ <= 65537 && Stops(msr, 0, 3, 0, reads_ - 2)
      ensures success <==> msr(reads_ - 1) & 3 == 0
    {
      hide Shows, Tests, Stops, RequestBits, FirstAck;
      ShowsTests();
      RequestNormal(mcr);
      WriteMcr(mcr & !(SLEEP | INRQ), 0);
      success, reads_ := Poll(Shows(NORMAL), msr, 0, 3, 0);
    }

    /** Mode 2: SLEEP asks, SLAK alone answers. */
    method EnterSleep(msr: nat -> Word) returns (success: bool, reads_: nat)
      modifies this`mcr, this`writes
      ensures mcr & 3 == 2 && mcr & !3 == old(mcr) & !3
      ensures 2 <= reads_ <= 65537 && Stops(msr, 0, 3, 2, reads_ - 2)
      ensures success <==> msr(reads_ - 1) & 3 == 2
    {
      hide Shows, Tests, Stops, RequestBits, FirstAck;
      ShowsTests();
      RequestSleep(mcr);
      WriteMcr((mcr & !INRQ) | SLEEP, 0);
      success, reads_ := Poll(Shows(SLEEPING), msr, 0, 3, 2);
    }

    /**
     Asks for a mode and waits for it. Whatever MSR does, at most 65537 reads are made, the
     answer is what the last of them shows, and MCR asks for the mode and is otherwise as before.
     */
    method OperatingModeRequest(mode: nat, msr: nat -> Word) returns (success: bool, reads_: nat)
      modifies this`mcr, this`writes
      ensures mode <= 2 ==> mcr & !3 == old(mcr) & !3 && 2 <= reads_ <= 65537
      ensures mode == 0 ==> mcr & 3 == 1 && Stops(msr, 0, 3, 1, reads_ - 2) && (success <==> msr(reads_ - 1) & 3 == 1)
      ensures mode == 1 ==> mcr & 3 == 0 && Stops(msr, 0, 3, 0, reads_ - 2) && (success <==> msr(reads_ - 1) & 3 == 0)
      ensures mode == 2 ==> mcr & 3 == 2 && Stops(msr, 0, 3, 2, reads_ - 2) && (success <==> msr(reads_ - 1) & 3 == 2)
      ensures mode > 2 ==> !success && reads_ == 0 && mcr == old(mcr)
    {
      hide Stops;
      if mode == INITIALIZATION {
        success, reads_ := EnterInitialization(msr);
      } else if mode == NORMAL {
        success, reads_ := EnterNormal(msr);
      } else if mode == SLEEPING {
        success, reads_ := EnterSleep(msr);
      } else {
        success, reads_ := false, 0;
      }
    }

    /** Asks the cell to leave sleep mode: SLEEP (bit 1) is taken down and SLAK (bit 1) must fall within the timeout. */
    method WakeUp(msr: nat -> Word) returns (success: bool, reads_: nat)
      modifies this`mcr, this`writes
      ensures 2 <= reads_ <= 65537 && Stops(msr, 0, 2, 0, reads_ - 2)
      ensures success <==> msr(reads_ - 1) & 2 == 0
      ensures mcr & 2 == 0 && mcr & !2 == old(mcr) & !2
    {
      AwakeTests();
      hide AwakeShown, Tests, Stops;
      WriteMcr(mcr & !SLEEP, 0);
      success, reads_ := Poll(AwakeShown(), msr, 0, 2, 0);
    }

    /** A write of MCR that leaves the options alone, or comes while INRQ is up and the last read showed INAK. */
    method Update(v: Word, reads_: nat, ghost start: Start, msr: nat -> Word)
      requires ConfiguredOnlyInInit(start, msr)
      requires SameOptions(v, mcr) || (reads_ > 0 && InInit(msr(reads_ - 1)) && Asks(mcr))
      modifies this`mcr, this`writes
      ensures mcr == v && ConfiguredOnlyInInit(start, msr) && Extends(old(writes), writes, reads_)
      ensures |writes| == |old(writes)| + 1 && writes[|old(writes)|].mcr' == v
    {
      WriteMcr(v, reads_);
    }

    /** One option, written in initialisation mode. */
    method SetOption(k: Word, on: bool, reads_: nat, ghost start: Start, msr: nat -> Word)
      requires ConfiguredOnlyInInit(start, msr) && 2 <= k <= 7
      requires reads_ > 0 && InInit(msr(reads_ - 1)) && Asks(mcr)
      modifies this`mcr, this`writes
      ensures mcr == WithBit(old(mcr), k, on) && Asks(mcr)
      ensures ConfiguredOnlyInInit(start, msr) && Extends(old(writes), writes, reads_)
    {
      hide ConfiguredOnlyInInit, WithBit, SameOptions, Extends;
      BesideStays(mcr, k, on);
      Update(WithBit(mcr, k, on), reads_, start, msr);
    }

    method WriteTiming(v: Word, reads_: nat, ghost start: Start, msr: nat -> Word)
      requires ConfiguredOnlyInInit(start, msr) && reads_ > 0 && InInit(msr(reads_ - 1)) && Asks(mcr)
      modifies this`btr, this`writes
      ensures btr == v && ConfiguredOnlyInInit(start, msr) && Extends(old(writes), writes, reads_)
    {
      WriteBtr(v, reads_);
    }

    /** The six options and the bit timing, written while INRQ is up and the last read showed INAK. */
    method Configure(o: Options, t: Timing, reads_: nat, ghost start: Start, msr: nat -> Word)
      requires ConfiguredOnlyInInit(start, msr) && t.Valid()
      requires reads_ > 0 && InInit(msr(reads_ - 1)) && Asks(mcr)
      modifies this
      ensures mcr == WithOptions(old(mcr), o) && btr == EncodeTiming(t)
      ensures ConfiguredOnlyInInit(start, msr) && Extends(old(writes), writes, reads_)
    {
      hide ConfiguredOnlyInInit, WithBit, EncodeTiming, Asks, InInit, Extends;
      ghost var before := writes;
      SetOption(7, o.ttcm, reads_, start, msr);
      ghost var log7 := writes;
      SetOption(6, o.abom, reads_, start, msr);
      ghost var log6 := writes;
      ExtendsOn(before, log7, log6, reads_);
      SetOption(5, o.awum, reads_, start, msr);
      ghost var log5 := writes;
      ExtendsOn(before, log6, log5, reads_);
      SetOption(4, o.nart, reads_, start, msr);
      ghost var log4 := writes;
      ExtendsOn(before, log5, log4, reads_);
      SetOption(3, o.rflm, reads_, start, msr);
      ghost var log3 := writes;
      ExtendsOn(before, log4, log3, reads_);
      SetOption(2, o.txfp, reads_, start, msr);
      ghost var log2 := writes;
      ExtendsOn(before, log3, log2, reads_);
      WriteTiming(EncodeTiming(t), reads_, start, msr);
      ExtendsOn(before, log2, writes, reads_);
    }

    /** Leaves sleep mode and asks for initialisation. */
    method AskInit(msr: nat -> Word)
      modifies this`mcr, this`writes
      ensures ConfiguredOnlyInInit(old(Here()), msr) && AskedFirst(old(Here()), writes)
      ensures AsksInit(mcr, old(mcr)) && Asks(mcr)
    {
      ghost var start := Here();
      RequestAsks(mcr);
      hide Awake, WithRequest, SameOptions, Asks;
      Update(Awake(mcr), 0, start, msr);
      Update(WithRequest(mcr), 0, start, msr);
    }

    /** Asks for initialisation, waits for it and checks. */
    method EnterInit(msr: nat -> Word) returns (entered: bool, reads_: nat)
      modifies this`mcr, this`writes
      ensures ConfiguredOnlyInInit(old(Here()), msr) && AskedFirst(old(Here()), writes)
      ensures AsksInit(mcr, old(mcr)) && Asks(mcr)
      ensures 2 <= reads_ <= 65537 && Stops(msr, 0, 1, 1, reads_ - 2)
      ensures entered <==> InInit(msr(reads_ - 1))
    {
      hide Entered, Left, Tests, Stops, ConfiguredOnlyInInit, AskedFirst, AsksInit, Asks;
      AskInit(msr);
      EnteredLeftTest();
      entered, reads_ := Poll(Entered(), msr, 0, 1, 1);
    }

    /** Takes the request back, waits for the cell to leave initialisation and checks. */
    method LeaveInitMode(n: nat, ghost start: Start, msr: nat -> Word) returns (left: bool, reads_: nat)
      requires ConfiguredOnlyInInit(start, msr)
      modifies this`mcr, this`writes
      ensures ConfiguredOnlyInInit(start, msr) && mcr == WithoutRequest(old(mcr)) && Extends(old(writes), writes, n)
      ensures n + 2 <= reads_ <= n + 65537 && Stops(msr, n, 1, 0, reads_ - n - 2)
      ensures left <==> msr(reads_ - 1) & 1 == 0
    {
      hide Entered, Left, Tests, Stops, ConfiguredOnlyInInit, WithoutRequest, SameOptions, Extends;
      WithoutRequestKeeps(mcr);
      Update(WithoutRequest(mcr), n, start, msr);
      EnteredLeftTest();
      left, reads_ := Poll(Left(), msr, n, 1, 0);
    }

    /** The part of the initialisation made once INAK was seen. */
    method ConfigureAndLeave(o: Options, t: Timing, n: nat, ghost start: Start, msr: nat -> Word)
      returns (left: bool, reads_: nat)
      requires ConfiguredOnlyInInit(start, msr) && AskedFirst(start, writes) && t.Valid()
      requires AsksInit(mcr, start.mcr) && Asks(mcr) && n > 0 && InInit(msr(n - 1))
      modifies this
      ensures ConfiguredOnlyInInit(start, msr) && AskedFirst(start, writes)
      ensures Initialised(mcr, o, start.mcr) && DecodeTiming(btr) == t
      ensures n + 2 <= reads_ <= n + 65537 && Stops(msr, n, 1, 0, reads_ - n - 2)
      ensures left <==> msr(reads_ - 1) & 1 == 0
    {
      hide Stops, EncodeTiming, DecodeTiming, WithOptions, Initialised, WithoutRequest, Timing.Valid,
        ConfiguredOnlyInInit, AskedFirst, Extends, AsksInit, Asks, InInit;
      InitLeaves(start.mcr, mcr, o);
      TimingRoundTrip(t);
      ghost var asked := writes;
      Configure(o, t, n, start, msr);
      ghost var configured := writes;
      left, reads_ := LeaveInitMode(n, start, msr);
      ExtendsOn(asked, configured, writes, n);
      AskedFirstOn(start, asked, writes, n);
    }

    /**
     Initialises the cell. Whatever MSR does, the call ends. The request for initialisation is
     up before MSR is first read; options and bit timing are written only with the request up
     and INAK seen, and then exactly as asked; success means that the last read showed the
     cell had left initialisation again. `polled` is the number of reads up to and with the
     first check.
     */
    method Init(o: Options, t: Timing, msr: nat -> Word) returns (success: bool, ghost polled: nat, reads_: nat)
      requires t.Valid()
      modifies this
      ensures ConfiguredOnlyInInit(old(Here()), msr) && AskedFirst(old(Here()), writes)
      ensures 2 <= polled <= 65537 && Stops(msr, 0, 1, 1, polled - 2)
      ensures msr(polled - 1) & 1 == 0 ==>
        && !success && reads_ == polled
        && mcr & 3 == 1 && mcr & !3 == old(mcr) & !3 && btr == old(btr)
      ensures msr(polled - 1) & 1 == 1 ==>
        && polled + 2 <= reads_ <= polled + 65537 && Stops(msr, polled, 1, 0, reads_ - polled - 2)
        && (success <==> msr(reads_ - 1) & 1 == 0)
        && mcr & 3 == 0 && OptionsOf(mcr) == o && mcr & 0xFFFF_FF00 == old(mcr) & 0xFFFF_FF00
        && DecodeTiming(btr) == t
    {
      hide Stops, OptionsOf, DecodeTiming, Timing.Valid, ConfiguredOnlyInInit, AskedFirst, Asks, Extends;
      ghost var start := Here();
      var entered, n := EnterInit(msr);
      polled := n;
      if entered {
        success, reads_ := ConfigureAndLeave(o, t, n, start, msr);
      } else {
        success, reads_ := false, n;
      }
    }
  }
}
