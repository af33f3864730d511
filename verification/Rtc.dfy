/**
 The real-time clock's 32-bit counter, which the processor can only reach as two 16-bit halves while
 it goes on counting (RM0008, sections 18.3.3 to 18.4.5).
 */
module Rtc {
  import opened Bits

  const HALF: nat := 0x1_0000
  const FULL: nat := 0x1_0000_0000

  function High(c: nat): nat { c / HALF }

  function Low(c: nat): nat { c % HALF }

  /** The counter after some ticks. */
  function After(c: nat, ticks: nat): (r: nat)
    ensures r < FULL
  {
    (c + ticks) % FULL
  }

  /** How often the low half rolls over in that time. */
  function Rollovers(c: nat, ticks: nat): nat { (Low(c) + ticks) / HALF }

  /** What a low half read first and a high half read `ticks` later add up to. */
  function Torn(c: nat, ticks: nat): nat { High(After(c, ticks)) * HALF + Low(c) }

  lemma HighAfter(c: nat, ticks: nat)
    requires c < FULL
    ensures High(After(c, ticks)) == (High(c) + Rollovers(c, ticks)) % HALF
  {
    var q, s := High(c) + Rollovers(c, ticks), (Low(c) + ticks) % HALF;
    assert c + ticks == q * HALF + s;
    var w, t := q / HALF, q % HALF;
    assert c + ticks == w * FULL + (t * HALF + s);
    assert After(c, ticks) == t * HALF + s;
  }

  lemma ModFull(v: nat, w: nat, x: nat)
    requires v == w * FULL + x && x < FULL
    ensures v % FULL == x
  {
  }

  lemma Halves(c: nat)
    ensures c == High(c) * HALF + Low(c) && Low(c) < HALF
  {
  }

  /** The result is ahead of the first reading by 65536 for every rollover of the low half, modulo the counter's width. */
  lemma TornIsAhead(c: nat, ticks: nat)
    requires c < FULL
    ensures Torn(c, ticks) == (c + HALF * Rollovers(c, ticks)) % FULL
  {
    hide High, Low, Rollovers, After;
    HighAfter(c, ticks);
    Halves(c);
    var q := High(c) + Rollovers(c, ticks);
    var w, t := q / HALF, q % HALF;
    assert c + HALF * Rollovers(c, ticks) == w * FULL + (t * HALF + Low(c));
    ModFull(c + HALF * Rollovers(c, ticks), w, t * HALF + Low(c));
  }

  /** The counter held this value at some moment between the two reads. */
  ghost predicate Held(c: nat, ticks: nat, v: nat) { exists k: nat :: k <= ticks && After(c, k) == v }

  lemma NoShift(h: nat, r: nat)
    requires h < HALF
    ensures (h + r) % HALF == h <==> r % HALF == 0
  {
  }

  /** It is the first reading exactly when the high half did not move, or moved all the way round. */
  lemma ExactUnlessRollover(c: nat, ticks: nat)
    requires c < FULL
    ensures Torn(c, ticks) == c <==> Rollovers(c, ticks) % HALF == 0
  {
    HighAfter(c, ticks);
    Halves(c);
    assert High(c) < HALF;
    hide High, Low, Rollovers, After;
    NoShift(High(c), Rollovers(c, ticks));
  }

  /** With no ticks between the reads the two halves belong together. */
  lemma NoTicksExact(c: nat)
    requires c < FULL
    ensures Torn(After(c, 0), 0) == c
  {
    ExactUnlessRollover(c, 0);
  }

  /** The moments at which the counter shows a value are one full turn apart. */
  lemma HeldFrom(c: nat, ticks: nat, ahead: nat)
    requires c < FULL
    ensures Held(c, ticks, (c + ahead) % FULL) <==> ahead % FULL <= ticks
  {
    var first := ahead % FULL;
    assert After(c, first) == (c + ahead) % FULL by {
      assert c + ahead == c + first + (ahead / FULL) * FULL;
    }
    forall k: nat | k < first
      ensures After(c, k) != (c + ahead) % FULL
    {
      assert After(c, k) != After(c, first);
    }
  }

  /**
   The result is a value the counter really held between the two reads exactly when the low half did not get
   smaller in between, or the counter all but went round.
   */
  lemma HeldUnlessLowFell(c: nat, ticks: nat)
    requires c < FULL
    ensures Held(c, ticks, Torn(c, ticks)) <==> Low(c) <= Low(After(c, ticks)) || Low(c) + ticks >= FULL
  {
    var r := Rollovers(c, ticks);
    TornIsAhead(c, ticks);
    HeldFrom(c, ticks, HALF * r);
    LowAfter(c, ticks);
    hide Held, Torn, After;
    if Low(c) + ticks < FULL {
      assert HALF * r < FULL;
    } else if ticks < FULL {
      assert r == HALF;
    }
  }

  /** One tick between the reads, at the wrong moment: 131071 is returned, 65535 ticks before its time. */
  lemma ReadsTheFuture()
    ensures Torn(0xFFFF, 1) == 0x1_FFFF && !Held(0xFFFF, 1, 0x1_FFFF)
  {
    HeldUnlessLowFell(0xFFFF, 1);
  }

  lemma LowAfter(c: nat, ticks: nat)
    requires c < FULL
    ensures Low(After(c, ticks)) + HALF * Rollovers(c, ticks) == Low(c) + ticks
  {
  }

  // ---------- the control register ----------

  const CNF: Word := 4
  const FLAGS: Word := 0xF

  /** The four flags can be cleared by writing zero and not set, RTOFF is read-only, CNF is as written. */
  function WriteCrl(crl: Word, w: Word): Word {
    (Masked(crl, w) & FLAGS) | (crl & 0x20) | (w & OneHot(CNF))
  }

  lemma WriteCrlAt(crl: Word, w: Word, j: Word)
    requires j < 6
    ensures Bit(WriteCrl(crl, w), j) ==
            if j < 4 then Bit(crl, j) && Bit(w, j) else if j == CNF then Bit(w, CNF) else Bit(crl, j)
  {
  }

  /** The flags after a change of CNF are those that were up when the register was read. */
  predicate CnfChanged(seen: Word, on: bool, crl: Word) {
    && Bit(crl, CNF) == on
    && Bit(crl, 0) == Bit(seen, 0) && Bit(crl, 1) == Bit(seen, 1) && Bit(crl, 2) == Bit(seen, 2) && Bit(crl, 3) == Bit(seen, 3)
  }

  /** A flag the hardware raises between the read and the write is lost. */
  lemma ChangeCnf(seen: Word, raised: Word, on: bool)
    ensures CnfChanged(seen, on, WriteCrl(Raised(seen, Masked(raised, FLAGS)), WithBit(seen, CNF, on)))
  {
    ChangeAt(seen, raised, on, 0);
    ChangeAt(seen, raised, on, 1);
    ChangeAt(seen, raised, on, 2);
    ChangeAt(seen, raised, on, 3);
    ChangeAt(seen, raised, on, CNF);
    hide Bit, WriteCrl, Raised, Masked, WithBit;
  }

  /** An overflow flag raised after the read is gone, one raised before it stays. */
  lemma FlagLost()
    ensures !Bit(WriteCrl(Raised(0x20, Masked(4, FLAGS)), WithBit(0x20, CNF, true)), 2)
    ensures Bit(WriteCrl(0x24, WithBit(0x24, CNF, true)), 2)
  {
    ChangeAt(0x20, 4, true, 2);
    assert !Bit(0x20, 2);
  }

  lemma ChangeAt(seen: Word, raised: Word, on: bool, j: Word)
    requires j <= 4
    ensures Bit(WriteCrl(Raised(seen, Masked(raised, FLAGS)), WithBit(seen, CNF, on)), j) == if j == CNF then on else Bit(seen, j)
  {
    hide Bit, WriteCrl, Raised, Masked, WithBit;
    WriteCrlAt(Raised(seen, Masked(raised, FLAGS)), WithBit(seen, CNF, on), j);
    WithBitAt(seen, CNF, on, j);
    WithBitAt(seen, CNF, on, CNF);
    RaisedAt(seen, Masked(raised, FLAGS), j);
  }

  datatype Option = None | Some(value: nat)

  /** What the hardware does before an access: some ticks, some flags, and it may finish a write. */
  datatype Meanwhile = Meanwhile(ticks: nat, flags: Word, done: bool)

  /** The counter, the halves written and not yet taken over, and the RTOFF bit: no write is under way. */
  datatype Core = Core(counter: nat, high: Option, low: Option, rtoff: bool)

  function Committed(c: Core): (r: nat)
    requires c.counter < FULL
    ensures r < FULL
  {
    (if c.high.Some? then c.high.value % HALF else High(c.counter)) * HALF +
    if c.low.Some? then c.low.value % HALF else Low(c.counter)
  }

  /** The clock ticks, and a write that is under way may be completed. */
  function Step(c: Core, m: Meanwhile): (c': Core)
    requires c.counter < FULL
    ensures c'.counter < FULL
  {
    var ticked := c.(counter := After(c.counter, m.ticks));
    if !c.rtoff && m.done then Core(Committed(ticked), None, None, true) else ticked
  }

  ghost predicate DoneAfter(hw: nat -> Meanwhile, k: nat) { exists n: nat :: n >= k && hw(n).done }

  /** Every write is completed at some time. */
  ghost predicate Finishes(hw: nat -> Meanwhile) { forall k: nat :: DoneAfter(hw, k) }

  /** A value's two halves are on their way into the counter. */
  predicate Writing(c: Core, value: nat) {
    !c.rtoff && c.high == Some(value / HALF) && c.low == Some(value % HALF)
  }

  lemma WritingCommits(c: Core, value: nat)
    requires c.counter < FULL && value < FULL && Writing(c, value)
    ensures Committed(c) == value
  {
  }

  /** A value that was being written has arrived. */
  ghost predicate Arrived(start: Core, c: Core) {
    forall value: nat :: value < FULL && Writing(start, value) ==> c.counter == value
  }

  /** Until the write is done its halves wait; when it is done the counter is the value. */
  lemma StepWrites(start: Core, c: Core, m: Meanwhile)
    requires c.counter < FULL
    requires if c.rtoff then c == start else c.high == start.high && c.low == start.low && !start.rtoff
    ensures var c' := Step(c, m);
      if c'.rtoff then Arrived(start, c') else c'.high == start.high && c'.low == start.low && !start.rtoff && !m.done
  {
    forall value: nat | value < FULL && Writing(start, value) && Step(c, m).rtoff
      ensures Step(c, m).counter == value
    {
      WritingCommits(c.(counter := After(c.counter, m.ticks)), value);
    }
  }

  lemma FlagsLeaveCnf(crl: Word, flags: Word)
    ensures Bit(Raised(crl, Masked(flags, FLAGS)), CNF) == Bit(crl, CNF)
  {
    RaisedAt(crl, Masked(flags, FLAGS), CNF);
    MaskedAt(flags, FLAGS, CNF);
    assert !Bit(FLAGS, CNF);
    hide Bit, Raised, Masked;
  }

  class Counter {
    var core: Core
    var crl: Word
    var now: nat
    const hw: nat -> Meanwhile

    predicate Valid()
      reads this
    {
      core.counter < FULL && (core.rtoff && !Configuring() ==> core.high == None && core.low == None)
    }

    predicate Configuring() reads this { Bit(crl, CNF) }

    /** Reset: counter zero, no write under way. */
    constructor (hw: nat -> Meanwhile)
      ensures Valid() && !Configuring() && core == Core(0, None, None, true) && now == 0 && this.hw == hw
    {
      this.hw := hw;
      now := 0;
      core := Core(0, None, None, true);
      crl := 0;
    }

    method Wait()
      requires Valid()
      modifies `core, `crl, `now
      ensures Valid() && now == old(now) + 1 && core == Step(old(core), hw(old(now)))
      ensures Configuring() == old(Configuring())
      ensures crl == Raised(old(crl), Masked(hw(old(now)).flags, FLAGS))
    {
      FlagsLeaveCnf(crl, hw(now).flags);
      hide Raised, Masked, Bit, After, Committed;
      core := Step(core, hw(now));
      crl := Raised(crl, Masked(hw(now).flags, FLAGS));
      now := now + 1;
    }

    /**
     RTC_EnterConfigMode and RTC_ExitConfigMode: one read and one write of CRL. Leaving starts the write of
     whatever was put into the counter's halves, and RTOFF falls until it is done.
     */
    method SetConfigMode(on: bool)
      requires Valid()
      modifies `core, `crl, `now
      ensures Valid() && now == old(now) + 2 && Configuring() == on
      ensures CnfChanged(Raised(old(crl), Masked(hw(old(now)).flags, FLAGS)), on, crl)
      ensures var c := Step(Step(old(core), hw(old(now))), hw(old(now) + 1));
        core == if !on && (c.high.Some? || c.low.Some?) then c.(rtoff := false) else c
    {
      hide Raised, Masked, WithBit, Bit, WriteCrl, Step;
      Wait();
      var seen := crl;
      Wait();
      ChangeCnf(seen, hw(now - 1).flags, on);
      crl := WriteCrl(crl, WithBit(seen, CNF, on));
      if !on && (core.high.Some? || core.low.Some?) {
        core := core.(rtoff := false);
      }
    }

    /** With no write under way, starts the write of the value; the counter goes on until it is done. */
    method SetCounter(value: nat)
      requires Valid() && value < FULL && core.rtoff && !Configuring()
      modifies `core, `crl, `now
      ensures Valid() && !Configuring() && Writing(core, value) && now == old(now) + 6
    {
      hide Raised, Masked, Bit, After, CnfChanged, Committed;
      SetConfigMode(true);
      Wait();
      core := core.(high := Some(value / HALF));
      Wait();
      core := core.(low := Some(value % HALF));
      SetConfigMode(false);
    }

    /** Waits until no write is under way. A value that was being written is then in the counter, at this very access. */
    method WaitForLastTask()
      requires Valid() && !Configuring() && Finishes(hw)
      modifies `core, `crl, `now
      ensures Valid() && !Configuring() && core.rtoff
      ensures forall value: nat :: value < FULL && Writing(old(core), value) ==> core.counter == value
    {
      hide Raised, Masked, Bit, After, Committed;
      assert DoneAfter(hw, now);
      ghost var n: nat :| n >= now && hw(n).done;
      ghost var start := core;
      StepWrites(start, core, hw(now));
      Wait();
      while !core.rtoff
        invariant Valid() && !Configuring()
        invariant !core.rtoff ==> core.high == start.high && core.low == start.low && !start.rtoff
        invariant core.rtoff ==> Arrived(start, core)
        invariant core.rtoff || now <= n
        decreases n - now
      {
        StepWrites(start, core, hw(now));
        Wait();
      }
    }

    /** Reads the low half, then the high half, with whatever comes before each. */
    method GetCounter() returns (value: nat)
      requires Valid()
      modifies `core, `crl, `now
      ensures Valid() && now == old(now) + 2 && Configuring() == old(Configuring())
      ensures var first := Step(old(core), hw(old(now)));
        && core == Step(first, hw(old(now) + 1))
        && value == High(core.counter) * HALF + Low(first.counter)
      ensures old(core.rtoff) ==>
        var first, ticks := After(old(core.counter), hw(old(now)).ticks), hw(old(now) + 1).ticks;
        value == Torn(first, ticks) == (first + HALF * Rollovers(first, ticks)) % FULL
    {
      hide Raised, Masked, Bit, Committed, Rollovers;
      Wait();
      ghost var first := core.counter;
      var tmp := Low(core.counter);
      Wait();
      value := High(core.counter) * HALF + tmp;
      TornIsAhead(first, hw(now - 1).ticks);
    }

    /** The calls in sequence: with no tick after the write is done, every 32-bit value comes back. */
    method SetThenGet(value: nat) returns (read: nat)
      requires Valid() && value < FULL && core.rtoff && !Configuring() && Finishes(hw)
      modifies `core, `crl, `now
      ensures Valid() && now >= 2
      ensures read == Torn(After(value, hw(now - 2).ticks), hw(now - 1).ticks)
      ensures hw(now - 2).ticks == 0 && hw(now - 1).ticks == 0 ==> read == value
    {
      hide Raised, Masked, Bit, Committed, Torn, After, Finishes;
      SetCounter(value);
      WaitForLastTask();
      read := GetCounter();
      NoTicksExact(value);
    }
  }
}
