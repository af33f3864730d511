/**
 The three-mailbox transmit side of the bxCAN cell, run against hardware that may
 finish a pending mailbox before any register access the driver makes.

 `Cell` is the registers; `Station` is what they mean: three slots and the ledger of
 messages accepted, sent and failed. Hardware behaviour follows RM0008, section 24.7.1.
 */
module CanTransmit {
  import opened Bits
  import opened CanFrame

  /** The three elements of a register array indexed by mailbox number. */
  datatype Trio<T> = Trio(t0: T, t1: T, t2: T) {
    function Get(i: Word): T
      requires i < 3
    {
      if i == 0 then t0 else if i == 1 then t1 else t2
    }

    function Set(i: Word, t: T): Trio<T>
      requires i < 3
    {
      if i == 0 then Trio(t, t1, t2) else if i == 1 then Trio(t0, t, t2) else Trio(t0, t1, t)
    }
  }

  // ---------- status bits of mailbox i in TSR: eight flag bits a mailbox, TME from bit 26 ----------

  predicate Idle(tsr: Word, i: Word) requires i < 3 { Bit(tsr, 26 + i) }
  predicate Completed(tsr: Word, i: Word) requires i < 3 { Bit(tsr, 8 * i) }
  predicate SentOk(tsr: Word, i: Word) requires i < 3 { Bit(tsr, 8 * i + 1) }
  predicate Aborting(tsr: Word, i: Word) requires i < 3 { Bit(tsr, 8 * i + 7) }

  predicate SameStatus(s: Word, t: Word, j: Word)
    requires j < 3
  {
    Idle(s, j) == Idle(t, j) && Completed(s, j) == Completed(t, j) && SentOk(s, j) == SentOk(t, j) && Aborting(s, j) == Aborting(t, j)
  }

  /** Hardware ends mailbox i: TME and RQCP rise, TXOK tells the outcome, the abort request is gone. */
  function TsrAfterFinish(tsr: Word, i: Word, ok: bool): Word
    requires i < 3
  {
    (tsr & !(0x82 << 8 * i)) | (0x0400_0000 << i) | ((if ok then 3 else 1) << 8 * i)
  }

  /** Setting TXRQ on mailbox i: TME and the four completion flags fall. */
  function TsrAfterRequest(tsr: Word, i: Word): Word
    requires i < 3
  {
    tsr & !(0x0400_0000 << i) & !(0x8F << 8 * i)
  }

  function ClearFlags(tsr: Word, i: Word): Word
    requires i < 3
  {
    tsr & !(0xF << 8 * i)
  }

  function RequestAbort(tsr: Word, i: Word): Word
    requires i < 3
  {
    tsr | (0x80 << 8 * i)
  }

  /** Writing v to TSR, as far as mailbox i goes: a one at RQCP clears its four flags, a one at ABRQ asks to abort it if pending. */
  function TsrAfterWrite(tsr: Word, v: Word, i: Word): Word
    requires i < 3
  {
    var t := if Completed(v, i) then ClearFlags(tsr, i) else tsr;
    if Aborting(v, i) && !Idle(tsr, i) then RequestAbort(t, i) else t
  }

  lemma FinishBits(tsr: Word, i: Word, ok: bool, j: Word)
    requires i < 3 && j < 3
    ensures var t := TsrAfterFinish(tsr, i, ok);
      Idle(t, i) && Completed(t, i) && !Aborting(t, i) && SentOk(t, i) == ok
    ensures i != j ==> SameStatus(TsrAfterFinish(tsr, i, ok), tsr, j)
  {
  }

  lemma RequestBits(tsr: Word, i: Word, j: Word)
    requires i < 3 && j < 3
    ensures var t := TsrAfterRequest(tsr, i);
      !Idle(t, i) && !Completed(t, i) && !SentOk(t, i) && !Aborting(t, i)
    ensures i != j ==> SameStatus(TsrAfterRequest(tsr, i), tsr, j)
  {
  }

  lemma ClearBits(tsr: Word, i: Word, j: Word)
    requires i < 3 && j < 3
    ensures var t := ClearFlags(tsr, i);
      Idle(t, i) == Idle(tsr, i) && !Completed(t, i) && !SentOk(t, i) && Aborting(t, i) == Aborting(tsr, i)
    ensures i != j ==> SameStatus(ClearFlags(tsr, i), tsr, j)
  {
  }

  lemma AbortBits(tsr: Word, i: Word, j: Word)
    requires i < 3 && j < 3
    ensures var t := RequestAbort(tsr, i);
      Idle(t, i) == Idle(tsr, i) && Completed(t, i) == Completed(tsr, i) && SentOk(t, i) == SentOk(tsr, i) && Aborting(t, i)
    ensures i != j ==> SameStatus(RequestAbort(tsr, i), tsr, j)
  {
  }

  lemma WriteBits(tsr: Word, v: Word, i: Word, j: Word)
    requires i < 3 && j < 3
    ensures var t := TsrAfterWrite(tsr, v, i);
      Idle(t, i) == Idle(tsr, i)
      && Completed(t, i) == (Completed(tsr, i) && !Completed(v, i))
      && SentOk(t, i) == (SentOk(tsr, i) && !Completed(v, i))
      && Aborting(t, i) == (Aborting(tsr, i) || (!Idle(tsr, i) && Aborting(v, i)))
    ensures i != j ==> SameStatus(TsrAfterWrite(tsr, v, i), tsr, j)
  {
    hide Idle, Completed, SentOk, Aborting, ClearFlags, RequestAbort;
    ClearBits(tsr, i, j);
    AbortBits(tsr, i, j);
    AbortBits(ClearFlags(tsr, i), i, j);
  }

  // ---------- registers and what they mean ----------

  datatype Cell = Cell(box: Trio<Mailbox>, tsr: Word) {
    predicate ValidAt(i: Word)
      requires i < 3
    {
      && (Idle(tsr, i) <==> box.Get(i).ir & TXRQ == 0)
      && (!Idle(tsr, i) ==> !Completed(tsr, i) && !SentOk(tsr, i))
      && (Idle(tsr, i) ==> !Aborting(tsr, i))
    }

    predicate Valid() { ValidAt(0) && ValidAt(1) && ValidAt(2) }
  }

  datatype Slot = Empty | Pending(frame: Frame, aborting: bool) | Done(ok: bool)

  /** What the registers say about mailbox i. */
  function SlotOf(c: Cell, i: Word): Slot
    requires i < 3
  {
    if !Idle(c.tsr, i) then Pending(Decode(c.box.Get(i)), Aborting(c.tsr, i))
    else if Completed(c.tsr, i) then Done(SentOk(c.tsr, i))
    else Empty
  }

  function SlotsOf(c: Cell): Trio<Slot> {
    Trio(SlotOf(c, 0), SlotOf(c, 1), SlotOf(c, 2))
  }

  /** The hardware ends the transmission of a mailbox: sent, or given up. */
  datatype Event = Finish(mailbox: Word, ok: bool)

  /** Hardware takes the transmission request back. */
  function Released(m: Mailbox): (m': Mailbox)
    ensures m'.ir & TXRQ == 0
  {
    m.(ir := m.ir & !TXRQ)
  }

  /** The register effect of a hardware event; nothing happens to an idle mailbox. */
  function FinishCell(c: Cell, e: Event): Cell {
    var i := e.mailbox;
    if i < 3 && !Idle(c.tsr, i) then
      Cell(c.box.Set(i, Released(c.box.Get(i))), TsrAfterFinish(c.tsr, i, e.ok))
    else c
  }

  function FinishCells(c: Cell, es: seq<Event>): Cell
    decreases |es|
  {
    if es == [] then c else FinishCell(FinishCells(c, es[..|es| - 1]), es[|es| - 1])
  }

  /** The slots together with every message ever accepted, sent or given up. */
  datatype Station = Station(slots: Trio<Slot>, accepted: multiset<Frame>, sent: multiset<Frame>, failed: multiset<Frame>) {
    /** Accepted messages are those pending, sent or given up. */
    ghost predicate Balanced() { accepted == HeldBy(slots) + sent + failed }
  }

  function Held(s: Slot): multiset<Frame> {
    if s.Pending? then multiset{s.frame} else multiset{}
  }

  function HeldBy(slots: Trio<Slot>): multiset<Frame> {
    Held(slots.t0) + Held(slots.t1) + Held(slots.t2)
  }

  function FinishSlot(s: Station, e: Event): (s': Station)
    ensures s'.accepted == s.accepted
  {
    if e.mailbox < 3 && s.slots.Get(e.mailbox).Pending? then
      var frame := multiset{s.slots.Get(e.mailbox).frame};
      s.(slots := s.slots.Set(e.mailbox, Done(e.ok)),
         sent := if e.ok then s.sent + frame else s.sent,
         failed := if e.ok then s.failed else s.failed + frame)
    else s
  }

  function FinishSlots(s: Station, es: seq<Event>): Station
    decreases |es|
  {
    if es == [] then s else FinishSlot(FinishSlots(s, es[..|es| - 1]), es[|es| - 1])
  }

  /** An idle slot takes a message. */
  function Submit(s: Station, i: Word, f: Frame): Station
    requires i < 3
  {
    s.(slots := s.slots.Set(i, Pending(f, false)), accepted := s.accepted + multiset{f})
  }

  /**
   An abort request. The driver writes TSR back, so every completion it had read, on any
   mailbox, is forgotten; one that came after the read stays.
   */
  function CancelledSlot(seen: Slot, now: Slot, chosen: bool): Slot {
    if seen.Done? then Empty
    else if chosen && now.Pending? then now.(aborting := true)
    else now
  }

  function Cancel(seen: Station, now: Station, i: Word): Station {
    now.(slots := Trio(CancelledSlot(seen.slots.t0, now.slots.t0, i == 0),
                       CancelledSlot(seen.slots.t1, now.slots.t1, i == 1),
                       CancelledSlot(seen.slots.t2, now.slots.t2, i == 2)))
  }

  // ---------- the ledger over every run ----------

  /** Replacing one slot exchanges what it holds. */
  lemma HeldAfterSet(slots: Trio<Slot>, i: Word, s: Slot)
    requires i < 3
    ensures HeldBy(slots.Set(i, s)) + Held(slots.Get(i)) == HeldBy(slots) + Held(s)
  {
    hide Held;
    var a, b, c, x := Held(slots.t0), Held(slots.t1), Held(slots.t2), Held(s);
    assert (x + b + c) + a == (a + b + c) + x;
    assert (a + x + c) + b == (a + b + c) + x;
    assert (a + b + x) + c == (a + b + c) + x;
  }

  lemma MoveOut(accepted: multiset<Frame>, held: multiset<Frame>, rest: multiset<Frame>, f: multiset<Frame>,
                sent: multiset<Frame>, failed: multiset<Frame>)
    requires accepted == held + sent + failed && rest + f == held
    ensures accepted == rest + (sent + f) + failed && accepted == rest + sent + (failed + f)
  {
  }

  lemma FinishSlotBalances(s: Station, e: Event)
    requires s.Balanced()
    ensures FinishSlot(s, e).Balanced()
  {
    if e.mailbox < 3 && s.slots.Get(e.mailbox).Pending? {
      hide HeldBy, Trio.Get, Trio.Set;
      HeldAfterSet(s.slots, e.mailbox, Done(e.ok));
      MoveOut(s.accepted, HeldBy(s.slots), HeldBy(s.slots.Set(e.mailbox, Done(e.ok))), Held(s.slots.Get(e.mailbox)), s.sent, s.failed);
    }
  }

  lemma {:induction false} FinishSlotsBalance(s: Station, es: seq<Event>)
    requires s.Balanced()
    ensures FinishSlots(s, es).Balanced()
    decreases |es|
  {
    if es != [] {
      FinishSlotsBalance(s, es[..|es| - 1]);
      FinishSlotBalances(FinishSlots(s, es[..|es| - 1]), es[|es| - 1]);
    }
  }

  /** Hardware never touches a slot that holds no message. */
  lemma {:induction false} IdleSlotsStay(s: Station, es: seq<Event>, i: Word)
    requires i < 3 && !s.slots.Get(i).Pending?
    ensures FinishSlots(s, es).slots.Get(i) == s.slots.Get(i)
    decreases |es|
  {
    if es != [] {
      IdleSlotsStay(s, es[..|es| - 1], i);
    }
  }

  lemma SubmitBalances(s: Station, i: Word, f: Frame)
    requires s.Balanced() && i < 3 && !s.slots.Get(i).Pending?
    ensures Submit(s, i, f).Balanced()
  {
    hide HeldBy, Trio.Get, Trio.Set;
    HeldAfterSet(s.slots, i, Pending(f, false));
    var held := HeldBy(s.slots);
    assert HeldBy(s.slots.Set(i, Pending(f, false))) == held + multiset{f};
    assert (held + multiset{f}) + s.sent + s.failed == (held + s.sent + s.failed) + multiset{f};
  }

  lemma CancelBalances(s: Station, es: seq<Event>, i: Word)
    requires s.Balanced()
    ensures Cancel(s, FinishSlots(s, es), i).Balanced()
  {
    var now := FinishSlots(s, es);
    FinishSlotsBalance(s, es);
    forall j: Word | j < 3
      ensures Held(Cancel(s, now, i).slots.Get(j)) == Held(now.slots.Get(j))
    {
      if s.slots.Get(j).Done? {
        IdleSlotsStay(s, es, j);
      }
    }
    assert Cancel(s, now, i).slots.Get(0) == Cancel(s, now, i).slots.t0;
    assert Cancel(s, now, i).slots.Get(1) == Cancel(s, now, i).slots.t1;
    assert Cancel(s, now, i).slots.Get(2) == Cancel(s, now, i).slots.t2;
  }

  datatype Step = Hardware(events: seq<Event>) | Request(mailbox: Word, frame: Frame) | Abort(mailbox: Word, between: seq<Event>)

  /** A run of the station; a request for a slot that is not idle is refused. */
  function Run(s: Station, steps: seq<Step>): Station
    decreases |steps|
  {
    if steps == [] then s else
      var p := Run(s, steps[..|steps| - 1]);
      match steps[|steps| - 1]
      case Hardware(es) => FinishSlots(p, es)
      case Request(i, f) => if i < 3 && !p.slots.Get(i).Pending? then Submit(p, i, f) else p
      case Abort(i, es) => Cancel(p, FinishSlots(p, es), i)
  }

  /** In every run, accepted messages are exactly those still pending, sent or given up. */
  lemma {:induction false} RunBalances(s: Station, steps: seq<Step>)
    requires s.Balanced()
    ensures Run(s, steps).Balanced()
    decreases |steps|
  {
    if steps != [] {
      var p := Run(s, steps[..|steps| - 1]);
      RunBalances(s, steps[..|steps| - 1]);
      match steps[|steps| - 1]
      case Hardware(es) => FinishSlotsBalance(p, es);
      case Request(i, f) =>
        if i < 3 && !p.slots.Get(i).Pending? {
          SubmitBalances(p, i, f);
        }
      case Abort(i, es) => CancelBalances(p, es, i);
    }
  }

  /** Runs compose, so a sequence of calls with hardware between them is one run. */
  lemma {:induction false} RunConcat(s: Station, a: seq<Step>, b: seq<Step>)
    ensures Run(s, a + b) == Run(Run(s, a), b)
    decreases |b|
  {
    hide Submit, Cancel;
    if b == [] {
      assert a + b == a;
    } else {
      RunConcat(s, a, b[..|b| - 1]);
      assert (a + b)[..|a + b| - 1] == a + b[..|b| - 1];
    }
  }

  /** What `Transmit` promises for an accepted message is a run of two steps. */
  lemma AcceptedIsRun(s: Station, es: seq<Event>, i: Word, f: Frame)
    requires i < 3 && !FinishSlots(s, es).slots.Get(i).Pending?
    ensures Run(s, [Hardware(es), Request(i, f)]) == Submit(FinishSlots(s, es), i, f)
  {
    hide FinishSlots, Submit;
    var steps := [Hardware(es), Request(i, f)];
    assert steps[..1] == [Hardware(es)] && [Hardware(es)][..0] == [];
    assert Run(s, [Hardware(es)]) == FinishSlots(s, es);
  }

  /** And so is what `CancelTransmit` promises. */
  lemma CancelledIsRun(s: Station, es: seq<Event>, i: Word, between: seq<Event>)
    ensures Run(s, [Hardware(es), Abort(i, between)]) == Cancel(FinishSlots(s, es), FinishSlots(FinishSlots(s, es), between), i)
  {
    hide FinishSlots, Cancel;
    var steps := [Hardware(es), Abort(i, between)];
    assert steps[..1] == [Hardware(es)] && [Hardware(es)][..0] == [];
    assert Run(s, [Hardware(es)]) == FinishSlots(s, es);
  }

  /** How often a frame was sent or given up. */
  ghost function Ended(s: Station, f: Frame): nat { s.sent[f] + s.failed[f] }

  /** One hardware event leaves a pending slot alone or counts its frame as ended. */
  lemma FinishSlotEnds(s: Station, e: Event, i: Word, f: Frame)
    requires i < 3
    ensures var r := FinishSlot(s, e);
      && s.sent[f] <= r.sent[f] && s.failed[f] <= r.failed[f]
      && (s.slots.Get(i) != r.slots.Get(i) && s.slots.Get(i).Pending? && s.slots.Get(i).frame == f ==> Ended(r, f) > Ended(s, f))
  {
  }

  /** No step of a run takes back what is recorded as sent or given up. */
  lemma {:induction false} FinishSlotsOnlyAdd(s: Station, es: seq<Event>, f: Frame)
    ensures s.sent[f] <= FinishSlots(s, es).sent[f] && s.failed[f] <= FinishSlots(s, es).failed[f]
    decreases |es|
  {
    if es != [] {
      FinishSlotsOnlyAdd(s, es[..|es| - 1], f);
    }
  }

  /** Hardware never overwrites a pending message: it stays in its slot until its frame is once more sent or given up. */
  lemma {:induction false} FinishSlotsKeepMessage(s: Station, es: seq<Event>, i: Word)
    requires i < 3 && s.slots.Get(i).Pending?
    ensures var f, r := s.slots.Get(i).frame, FinishSlots(s, es);
      r.slots.Get(i) == s.slots.Get(i) || Ended(r, f) > Ended(s, f)
    decreases |es|
  {
    if es != [] {
      var p, f := FinishSlots(s, es[..|es| - 1]), s.slots.Get(i).frame;
      FinishSlotsKeepMessage(s, es[..|es| - 1], i);
      FinishSlotsOnlyAdd(s, es[..|es| - 1], f);
      FinishSlotEnds(p, es[|es| - 1], i, f);
    }
  }

  lemma {:induction false} RunOnlyAdds(s: Station, steps: seq<Step>, f: Frame)
    ensures s.sent[f] <= Run(s, steps).sent[f] && s.failed[f] <= Run(s, steps).failed[f]
    decreases |steps|
  {
    if steps != [] {
      var p := Run(s, steps[..|steps| - 1]);
      RunOnlyAdds(s, steps[..|steps| - 1], f);
      match steps[|steps| - 1]
      case Hardware(es) => FinishSlotsOnlyAdd(p, es, f);
      case Request(_, _) =>
      case Abort(_, es) => FinishSlotsOnlyAdd(p, es, f);
    }
  }

  /** The hardware's part in a step. */
  function EventsOf(step: Step): seq<Event> {
    match step
    case Hardware(es) => es
    case Request(_, _) => []
    case Abort(_, es) => es
  }

  lemma {:induction false} FinishSlotsAllAlike(s: Station, es: seq<Event>, ok: bool)
    requires forall e :: e in es ==> e.ok == ok
    ensures ok ==> FinishSlots(s, es).failed == s.failed
    ensures !ok ==> FinishSlots(s, es).sent == s.sent
    decreases |es|
  {
    if es != [] {
      FinishSlotsAllAlike(s, es[..|es| - 1], ok);
      assert es[|es| - 1] in es;
    }
  }

  /** In a run where every transmission succeeds nothing is recorded as given up, and nothing as sent where every one fails. */
  lemma {:induction false} RunAllAlike(s: Station, steps: seq<Step>, ok: bool)
    requires forall k, e :: 0 <= k < |steps| && e in EventsOf(steps[k]) ==> e.ok == ok
    ensures ok ==> Run(s, steps).failed == s.failed
    ensures !ok ==> Run(s, steps).sent == s.sent
    decreases |steps|
  {
    if steps != [] {
      var p, step := Run(s, steps[..|steps| - 1]), steps[|steps| - 1];
      RunAllAlike(s, steps[..|steps| - 1], ok);
      assert forall e :: e in EventsOf(step) ==> e.ok == ok;
      FinishSlotsAllAlike(p, EventsOf(step), ok);
    }
  }

  /**
   In every run, a message once pending is in its slot still, or its frame was sent or given up once more
   than before; equal frames sent earlier do not count.
   */
  lemma {:induction false} RunKeepsMessage(s: Station, steps: seq<Step>, i: Word)
    requires i < 3 && s.slots.Get(i).Pending?
    ensures var f, r := s.slots.Get(i).frame, Run(s, steps);
      (r.slots.Get(i).Pending? && r.slots.Get(i).frame == f) || Ended(r, f) > Ended(s, f)
    decreases |steps|
  {
    if steps != [] {
      var p, f := Run(s, steps[..|steps| - 1]), s.slots.Get(i).frame;
      RunKeepsMessage(s, steps[..|steps| - 1], i);
      RunOnlyAdds(s, steps[..|steps| - 1], f);
      match steps[|steps| - 1]
      case Hardware(es) =>
        FinishSlotsOnlyAdd(p, es, f);
        if p.slots.Get(i).Pending? { FinishSlotsKeepMessage(p, es, i); }
      case Request(_, _) =>
      case Abort(_, es) =>
        FinishSlotsOnlyAdd(p, es, f);
        if p.slots.Get(i).Pending? { FinishSlotsKeepMessage(p, es, i); }
    }
  }

  // ---------- registers refine slots ----------

  lemma FinishMailbox(c: Cell, e: Event, j: Word)
    requires c.Valid() && e.mailbox < 3 && !Idle(c.tsr, e.mailbox) && j < 3
    ensures FinishCell(c, e).ValidAt(j)
    ensures SlotOf(FinishCell(c, e), j) == if j == e.mailbox then Done(e.ok) else SlotOf(c, j)
  {
    hide Decode, Idle, Completed, SentOk, Aborting, TsrAfterFinish;
    FinishBits(c.tsr, e.mailbox, e.ok, j);
  }

  lemma FinishCellRefines(c: Cell, s: Station, e: Event)
    requires c.Valid() && SlotsOf(c) == s.slots
    ensures FinishCell(c, e).Valid()
    ensures SlotsOf(FinishCell(c, e)) == FinishSlot(s, e).slots
  {
    hide Decode, Idle, Completed, SentOk, Aborting, Cell.ValidAt;
    if e.mailbox < 3 && !Idle(c.tsr, e.mailbox) {
      hide FinishCell;
      FinishMailbox(c, e, 0);
      FinishMailbox(c, e, 1);
      FinishMailbox(c, e, 2);
    }
  }

  /** Whatever the hardware finishes, the registers go on meaning the slots. */
  lemma {:induction false} FinishCellsRefine(c: Cell, s: Station, es: seq<Event>)
    requires c.Valid() && SlotsOf(c) == s.slots
    ensures FinishCells(c, es).Valid()
    ensures SlotsOf(FinishCells(c, es)) == FinishSlots(s, es).slots
    decreases |es|
  {
    hide SlotsOf, Cell.Valid, FinishCell, FinishSlot;
    if es != [] {
      FinishCellsRefine(c, s, es[..|es| - 1]);
      FinishCellRefines(FinishCells(c, es[..|es| - 1]), FinishSlots(s, es[..|es| - 1]), es[|es| - 1]);
    }
  }

  /** Hardware leaves the registers of an idle mailbox alone. */
  lemma {:induction false} IdleMailboxStays(c: Cell, es: seq<Event>, i: Word)
    requires i < 3 && Idle(c.tsr, i)
    ensures Idle(FinishCells(c, es).tsr, i) && FinishCells(c, es).box.Get(i) == c.box.Get(i)
    decreases |es|
  {
    hide Idle, TsrAfterFinish;
    if es != [] {
      IdleMailboxStays(c, es[..|es| - 1], i);
      var e, p := es[|es| - 1], FinishCells(c, es[..|es| - 1]);
      if e.mailbox < 3 {
        FinishBits(p.tsr, e.mailbox, e.ok, i);
      }
    }
  }

  lemma {:induction false} FinishSlotsConcat(s: Station, es: seq<Event>, fs: seq<Event>)
    ensures FinishSlots(s, es + fs) == FinishSlots(FinishSlots(s, es), fs)
    decreases |fs|
  {
    hide FinishSlot;
    if fs == [] {
      assert es + fs == es;
    } else {
      FinishSlotsConcat(s, es, fs[..|fs| - 1]);
      assert (es + fs)[..|es + fs| - 1] == es + fs[..|fs| - 1];
    }
  }

  /** All hardware events before register access n, when `schedule(k)` happens just before access k. */
  function Events(schedule: nat -> seq<Event>, n: nat): seq<Event> {
    if n == 0 then [] else Events(schedule, n - 1) + schedule(n - 1)
  }

  /** A read-modify-write: clear what is not in `keep`, set what is in `set_`. */
  function KeepAndSet(v: Word, keep: Word, set_: Word): Word {
    (v & keep) | set_
  }

  lemma MaskedRequest(v: Word, keep: Word, set_: Word)
    requires v & TXRQ == 0 && set_ & TXRQ == 0
    ensures KeepAndSet(v, keep, set_) & TXRQ == 0
  {
  }

  function Requesting(m: Mailbox): (m': Mailbox)
    ensures m'.ir & TXRQ != 0
  {
    m.(ir := m.ir | TXRQ)
  }

  /** Setting TXRQ turns an idle slot into a pending one that holds what the registers decode to. */
  lemma RequestRefines(c: Cell, i: Word, m: Mailbox)
    requires c.Valid() && i < 3 && Idle(c.tsr, i) && m.ir & TXRQ != 0
    ensures var c' := Cell(c.box.Set(i, m), TsrAfterRequest(c.tsr, i));
      c'.Valid() && SlotsOf(c') == SlotsOf(c).Set(i, Pending(Decode(m), false))
  {
    hide Decode, Idle, Completed, SentOk, Aborting, TsrAfterRequest;
    RequestBits(c.tsr, i, 0);
    RequestBits(c.tsr, i, 1);
    RequestBits(c.tsr, i, 2);
  }

  /** Mailbox k was pending at the (k+1)-th register access of the call. */
  predicate SeenBusy(start: Station, schedule: nat -> seq<Event>, k: Word)
    requires k < 3
  {
    FinishSlots(start, Events(schedule, Reads(k))).slots.Get(k).Pending?
  }

  /** How often TSR is read before a call settles on a mailbox, or gives up. */
  function Reads(mailbox: Word): nat {
    if mailbox == 0 then 1 else if mailbox == 1 then 2 else 3
  }

  /** The mailbox a call picks: it was empty, and each mailbox before it was pending, when its bit was read. */
  predicate Chosen(start: Station, schedule: nat -> seq<Event>, mailbox: Word) {
    if mailbox == 0 then !SeenBusy(start, schedule, 0)
    else if mailbox == 1 then SeenBusy(start, schedule, 0) && !SeenBusy(start, schedule, 1)
    else if mailbox == 2 then SeenBusy(start, schedule, 0) && SeenBusy(start, schedule, 1) && !SeenBusy(start, schedule, 2)
    else SeenBusy(start, schedule, 0) && SeenBusy(start, schedule, 1) && SeenBusy(start, schedule, 2)
  }

  lemma ChosenIsIdle(c: Cell, start: Station, schedule: nat -> seq<Event>, mailbox: Word)
    requires mailbox < 3 && Chosen(start, schedule, mailbox)
    requires SlotsOf(c) == FinishSlots(start, Events(schedule, Reads(mailbox))).slots
    ensures Idle(c.tsr, mailbox)
  {
    hide FinishSlots, Events, Idle, Completed, SentOk, Aborting, Decode;
    assert SlotsOf(c).Get(mailbox) == SlotOf(c, mailbox);
  }

  lemma NoEventsYet(s: Station, c: Cell, schedule: nat -> seq<Event>)
    ensures FinishSlots(s, Events(schedule, 0)) == s && FinishCells(c, Events(schedule, 0)) == c
  {
  }

  lemma TmeMasks(tsr: Word)
    ensures Idle(tsr, 0) <==> tsr & 0x0400_0000 == 0x0400_0000
    ensures Idle(tsr, 1) <==> tsr & 0x0800_0000 == 0x0800_0000
    ensures Idle(tsr, 2) <==> tsr & 0x1000_0000 == 0x1000_0000
  {
  }

  lemma {:induction false} FinishCellsConcat(c: Cell, es: seq<Event>, fs: seq<Event>)
    ensures FinishCells(c, es + fs) == FinishCells(FinishCells(c, es), fs)
    decreases |fs|
  {
    hide FinishCell;
    if fs == [] {
      assert es + fs == es;
    } else {
      FinishCellsConcat(c, es, fs[..|fs| - 1]);
      assert (es + fs)[..|es + fs| - 1] == es + fs[..|fs| - 1];
    }
  }

  lemma IdleNotPending(c: Cell, i: Word)
    requires i < 3 && Idle(c.tsr, i)
    ensures !SlotsOf(c).Get(i).Pending?
  {
  }

  lemma NoRequestYet(m: TxMessage)
    requires m.Valid()
    ensures IdentifierWord(m) & TXRQ == 0
  {
  }

  /** The driver's five register updates leave the caller's frame in the mailbox. */
  lemma FilledDecodes(message: TxMessage, before: Mailbox, after: Mailbox)
    requires message.Valid() && before.ir & TXRQ == 0
    requires after.ir == KeepAndSet(KeepAndSet(before.ir, TXRQ, 0), 0xFFFF_FFFF, IdentifierWord(message))
    requires after.dtr == KeepAndSet(KeepAndSet(before.dtr, 0xFFFF_FFF0, 0), 0xFFFF_FFFF, (message.dlc & 0x0F) as Word)
    requires after.dlr == FourBytes(message.data[0], message.data[1], message.data[2], message.data[3])
    requires after.dhr == FourBytes(message.data[4], message.data[5], message.data[6], message.data[7])
    ensures Decode(Requesting(after)) == Requested(message)
  {
    hide Decode, Requested, FourBytes, IdentifierWord;
    PackedDecodes(message, Requesting(after), before.dtr);
  }

  /** What the driver reports for a slot. */
  function StatusOf(s: Slot): Status {
    match s
    case Pending(_, _) => StillPending
    case Done(ok) => if ok then Ok else Failed
    case Empty => Failed
  }

  /**
   An abort request changes what is reported for a mailbox exactly when that mailbox, any
   mailbox, had been sent successfully by the time the driver read TSR.
   */
  lemma CancelKeepsStatusUnlessSent(seen: Station, between: seq<Event>, i: Word, j: Word)
    requires j < 3
    ensures var now := FinishSlots(seen, between);
      StatusOf(Cancel(seen, now, i).slots.Get(j)) == StatusOf(now.slots.Get(j)) <==> seen.slots.Get(j) != Done(true)
  {
    if !seen.slots.Get(j).Pending? {
      IdleSlotsStay(seen, between, j);
    }
  }

  /** Mailbox 0 was sent; aborting mailbox 1 makes the driver report it as failed. */
  lemma CancelForgetsSuccess(f: Frame)
    ensures var s := Station(Trio(Done(true), Pending(f, false), Empty), multiset{f, f}, multiset{f}, multiset{});
      s.Balanced() && StatusOf(s.slots.t0) == Ok && StatusOf(Cancel(s, s, 1).slots.t0) == Failed
  {
  }

  /**
   An abort asks for one mailbox: what is pending stays pending with its frame, and its abort is asked for
   if that mailbox is the one or it was asked for before. Nothing is entered in the ledger.
   */
  lemma CancelAsks(seen: Station, between: seq<Event>, i: Word, j: Word)
    requires j < 3
    ensures var now := FinishSlots(seen, between);
      var r := Cancel(seen, now, i);
      && r.accepted == now.accepted && r.sent == now.sent && r.failed == now.failed
      && (r.slots.Get(j).Pending? <==> now.slots.Get(j).Pending?)
      && (now.slots.Get(j).Pending? ==>
           && r.slots.Get(j).frame == now.slots.Get(j).frame
           && (r.slots.Get(j).aborting <==> now.slots.Get(j).aborting || i == j))
  {
    if !seen.slots.Get(j).Pending? {
      IdleSlotsStay(seen, between, j);
    }
  }

  /** `TSR |= ABRQi` as the value the driver writes back. */
  function WithAbort(tsr: Word, i: Word): Word {
    tsr | (if i == 0 then 0x80 else if i == 1 then 0x8000 else 0x80_0000)
  }

  /** The three codes `CAN_TransmitStatus` looks for in the masked status of mailbox i. */
  lemma StateBits(tsr: Word, i: Word, state: Word)
    requires i < 3
    requires state == tsr & (if i == 0 then 0x0400_0003 else if i == 1 then 0x0800_0300 else 0x1003_0000)
    ensures state == 0 <==> !Idle(tsr, i) && !Completed(tsr, i) && !SentOk(tsr, i)
    ensures state == 0x0400_0001 || state == 0x0800_0100 || state == 0x1001_0000 <==>
            Idle(tsr, i) && Completed(tsr, i) && !SentOk(tsr, i)
    ensures state == 0x0400_0003 || state == 0x0800_0300 || state == 0x1003_0000 <==>
            Idle(tsr, i) && Completed(tsr, i) && SentOk(tsr, i)
  {
  }

  lemma AbortMask(v: Word, i: Word, j: Word)
    requires i < 3 && j < 3
    ensures Completed(WithAbort(v, i), j) == Completed(v, j)
    ensures Aborting(WithAbort(v, i), j) == (Aborting(v, j) || i == j)
  {
  }

  /** A mailbox still pending after some hardware events keeps its abort request as it was. */
  lemma {:induction false} PendingKeepsAbort(c: Cell, es: seq<Event>, j: Word)
    requires j < 3 && !Idle(FinishCells(c, es).tsr, j)
    ensures Aborting(FinishCells(c, es).tsr, j) == Aborting(c.tsr, j)
    decreases |es|
  {
    hide Idle, Aborting, Completed, SentOk, TsrAfterFinish, Released;
    if es != [] {
      var e, p := es[|es| - 1], FinishCells(c, es[..|es| - 1]);
      if e.mailbox < 3 && !Idle(p.tsr, e.mailbox) {
        FinishBits(p.tsr, e.mailbox, e.ok, j);
      }
      PendingKeepsAbort(c, es[..|es| - 1], j);
    }
  }

  /** TSR after the driver writes v back. */
  function WriteTsr(tsr: Word, v: Word): Word {
    TsrAfterWrite(TsrAfterWrite(TsrAfterWrite(tsr, v, 0), v, 1), v, 2)
  }

  lemma WriteTsrBits(tsr: Word, v: Word, j: Word)
    requires j < 3
    ensures var t := WriteTsr(tsr, v);
      Idle(t, j) == Idle(tsr, j)
      && Completed(t, j) == (Completed(tsr, j) && !Completed(v, j))
      && SentOk(t, j) == (SentOk(tsr, j) && !Completed(v, j))
      && Aborting(t, j) == (Aborting(tsr, j) || (!Idle(tsr, j) && Aborting(v, j)))
  {
    hide Idle, Completed, SentOk, Aborting, TsrAfterWrite;
    var t0 := TsrAfterWrite(tsr, v, 0);
    var t1 := TsrAfterWrite(t0, v, 1);
    WriteBits(tsr, v, 0, j);
    WriteBits(t0, v, 1, j);
    WriteBits(t1, v, 2, j);
  }

  lemma CancelMailbox(seen: Cell, es: seq<Event>, i: Word, j: Word)
    requires seen.Valid() && FinishCells(seen, es).Valid() && i < 3 && j < 3
    ensures var now := FinishCells(seen, es);
      var after := now.(tsr := WriteTsr(now.tsr, WithAbort(seen.tsr, i)));
      after.ValidAt(j) && SlotOf(after, j) == CancelledSlot(SlotOf(seen, j), SlotOf(now, j), i == j)
  {
    hide Idle, Completed, SentOk, Aborting, WriteTsr, WithAbort, Decode, FinishCells;
    var now := FinishCells(seen, es);
    WriteTsrBits(now.tsr, WithAbort(seen.tsr, i), j);
    AbortMask(seen.tsr, i, j);
    if Idle(seen.tsr, j) {
      IdleMailboxStays(seen, es, j);
    }
    if !Idle(now.tsr, j) {
      PendingKeepsAbort(seen, es, j);
    }
  }

  lemma CancelRefines(seen: Cell, es: seq<Event>, i: Word)
    requires seen.Valid() && FinishCells(seen, es).Valid() && i < 3
    ensures var now := FinishCells(seen, es);
      var after := now.(tsr := WriteTsr(now.tsr, WithAbort(seen.tsr, i)));
      after.Valid()
      && SlotsOf(after) == Trio(CancelledSlot(SlotOf(seen, 0), SlotOf(now, 0), i == 0),
                                CancelledSlot(SlotOf(seen, 1), SlotOf(now, 1), i == 1),
                                CancelledSlot(SlotOf(seen, 2), SlotOf(now, 2), i == 2))
  {
    CancelMailbox(seen, es, i, 0);
    CancelMailbox(seen, es, i, 1);
    CancelMailbox(seen, es, i, 2);
    hide Cell.ValidAt, SlotOf, WriteTsr, WithAbort, FinishCells;
  }

  // ---------- the driver ----------

  const NO_MAILBOX: Word := 4

  datatype Status = Failed | Ok | StillPending

  lemma ResetStatus()
    ensures var tsr: Word := 0x1C00_0000; Idle(tsr, 0) && Idle(tsr, 1) && Idle(tsr, 2)
    ensures var tsr: Word := 0x1C00_0000; !Completed(tsr, 0) && !Completed(tsr, 1) && !Completed(tsr, 2)
    ensures var tsr: Word := 0x1C00_0000; !Aborting(tsr, 0) && !Aborting(tsr, 1) && !Aborting(tsr, 2)
  {
  }

  lemma ReadsToRefuse()
    ensures Reads(NO_MAILBOX) == 3
  {
  }

  /** The transmit registers of one CAN cell, with the ledger kept beside them. */
  class Transmitter {
    var box: Trio<Mailbox>
    var tsr: Word
    ghost var accepted: multiset<Frame>
    ghost var sent: multiset<Frame>
    ghost var failed: multiset<Frame>

    /** Reset: three empty mailboxes, whatever else their registers hold, and an empty ledger. */
    constructor (box: Trio<Mailbox>)
      requires forall i: Word :: i < 3 ==> box.Get(i).ir & TXRQ == 0
      ensures Valid() && Meaning() == Station(Trio(Empty, Empty, Empty), multiset{}, multiset{}, multiset{})
    {
      this.box := box;
      tsr := 0x1C00_0000;
      accepted, sent, failed := multiset{}, multiset{}, multiset{};
      new;
      ResetStatus();
      assert box.Get(0).ir & TXRQ == 0 && box.Get(1).ir & TXRQ == 0 && box.Get(2).ir & TXRQ == 0;
      hide Idle, Completed, SentOk, Aborting, Decode;
    }

    function Registers(): Cell
      reads this
    {
      Cell(box, tsr)
    }

    ghost function Meaning(): Station
      reads this
    {
      Station(SlotsOf(Registers()), accepted, sent, failed)
    }

    ghost predicate Valid()
      reads this
    {
      Registers().Valid() && Meaning().Balanced()
    }

    /** The state is `start` with only the hardware events of the first k register accesses added. */
    ghost predicate OnlyHardware(start: Station, schedule: nat -> seq<Event>, k: nat)
      reads this
    {
      Registers().Valid() && Meaning() == FinishSlots(start, Events(schedule, k))
    }

    /** The same, and the registers too are what the hardware alone makes of `cell`. */
    ghost predicate Untouched(start: Station, cell: Cell, schedule: nat -> seq<Event>, k: nat)
      reads this
    {
      OnlyHardware(start, schedule, k) && Registers() == FinishCells(cell, Events(schedule, k))
    }

    /** The hardware ends one transmission. */
    method FinishOne(e: Event)
      requires Registers().Valid()
      modifies this
      ensures Registers() == FinishCell(old(Registers()), e) && Registers().Valid()
      ensures Meaning() == FinishSlot(old(Meaning()), e)
    {
      hide FinishCell, FinishSlot, SlotsOf, Cell.Valid;
      FinishCellRefines(Registers(), Meaning(), e);
      ghost var after := FinishSlot(Meaning(), e);
      var cell := FinishCell(Registers(), e);
      box, tsr := cell.box, cell.tsr;
      sent, failed := after.sent, after.failed;
    }

    /** The hardware works through the events that come before register access k. */
    method Hardware(schedule: nat -> seq<Event>, k: nat, ghost start: Station)
      requires OnlyHardware(start, schedule, k)
      modifies this
      ensures OnlyHardware(start, schedule, k + 1)
      ensures Registers() == FinishCells(old(Registers()), schedule(k))
      ensures Meaning() == FinishSlots(old(Meaning()), schedule(k))
    {
      hide Registers, Meaning, FinishCell, FinishSlot, Cell.Valid;
      ghost var s, c := Meaning(), Registers();
      var es := schedule(k);
      for n := 0 to |es|
        invariant Registers().Valid() && Registers() == FinishCells(c, es[..n])
        invariant Meaning() == FinishSlots(s, es[..n])
      {
        assert es[..n + 1][..n] == es[..n];
        FinishOne(es[n]);
      }
      assert es[..|es|] == es;
      FinishSlotsConcat(start, Events(schedule, k), es);
    }

    /** A write to a register of an idle mailbox that does not ask for transmission. */
    method WriteMailbox(i: Word, m: Mailbox)
      requires i < 3 && Idle(tsr, i) && m.ir & TXRQ == 0 && Registers().Valid()
      modifies this`box
      ensures Registers().Valid() && Meaning() == old(Meaning())
      ensures box == old(box.Set(i, m))
    {
      hide Decode, Idle, Completed, SentOk, Aborting;
      box := box.Set(i, m);
    }

    /** `TIR &= keep` or `TIR |= set`: a read, then a write, with hardware running before each. */
    method UpdateIdentifier(i: Word, keep: Word, set_: Word, schedule: nat -> seq<Event>, k: nat, ghost start: Station)
      requires i < 3 && OnlyHardware(start, schedule, k) && Idle(tsr, i) && set_ & TXRQ == 0
      modifies this
      ensures OnlyHardware(start, schedule, k + 2) && Idle(tsr, i)
      ensures box.Get(i) == old(box.Get(i).(ir := KeepAndSet(box.Get(i).ir, keep, set_)))
    {
      hide Idle, FinishCells, FinishSlots, SlotsOf, KeepAndSet;
      MaskedRequest(box.Get(i).ir, keep, set_);
      IdleMailboxStays(Registers(), schedule(k), i);
      Hardware(schedule, k, start);
      var v := box.Get(i).ir;
      IdleMailboxStays(Registers(), schedule(k + 1), i);
      Hardware(schedule, k + 1, start);
      WriteMailbox(i, box.Get(i).(ir := KeepAndSet(v, keep, set_)));
    }

    /** `TDTR &= keep` or `TDTR |= set`. */
    method UpdateLength(i: Word, keep: Word, set_: Word, schedule: nat -> seq<Event>, k: nat, ghost start: Station)
      requires i < 3 && OnlyHardware(start, schedule, k) && Idle(tsr, i)
      modifies this
      ensures OnlyHardware(start, schedule, k + 2) && Idle(tsr, i)
      ensures box.Get(i) == old(box.Get(i).(dtr := KeepAndSet(box.Get(i).dtr, keep, set_)))
    {
      hide Idle, FinishCells, FinishSlots, SlotsOf, KeepAndSet;
      IdleMailboxStays(Registers(), schedule(k), i);
      Hardware(schedule, k, start);
      var v := box.Get(i).dtr;
      IdleMailboxStays(Registers(), schedule(k + 1), i);
      Hardware(schedule, k + 1, start);
      WriteMailbox(i, box.Get(i).(dtr := KeepAndSet(v, keep, set_)));
    }

    /** `TDLR = low` and `TDHR = high`. */
    method WriteData(i: Word, low: Word, high: Word, schedule: nat -> seq<Event>, k: nat, ghost start: Station)
      requires i < 3 && OnlyHardware(start, schedule, k) && Idle(tsr, i)
      modifies this
      ensures OnlyHardware(start, schedule, k + 2) && Idle(tsr, i)
      ensures box.Get(i) == old(box.Get(i).(dlr := low, dhr := high))
    {
      hide Idle, FinishCells, FinishSlots, SlotsOf;
      IdleMailboxStays(Registers(), schedule(k), i);
      Hardware(schedule, k, start);
      WriteMailbox(i, box.Get(i).(dlr := low));
      IdleMailboxStays(Registers(), schedule(k + 1), i);
      Hardware(schedule, k + 1, start);
      WriteMailbox(i, box.Get(i).(dhr := high));
    }

    /** `TIR |= TXRQ`: the mailbox becomes pending, and the caller's message is accepted. */
    method RequestTransmission(i: Word, ghost frame: Frame, schedule: nat -> seq<Event>, k: nat, ghost start: Station)
      requires i < 3 && OnlyHardware(start, schedule, k) && Idle(tsr, i)
      requires Decode(Requesting(box.Get(i))) == frame
      modifies this
      ensures Registers().Valid()
      ensures Meaning() == Submit(FinishSlots(start, Events(schedule, k + 2)), i, frame)
      ensures !FinishSlots(start, Events(schedule, k + 2)).slots.Get(i).Pending?
    {
      hide Decode, Idle, FinishCells, FinishSlots, SlotsOf, Requesting;
      IdleMailboxStays(Registers(), schedule(k), i);
      Hardware(schedule, k, start);
      var m := Requesting(box.Get(i));
      IdleMailboxStays(Registers(), schedule(k + 1), i);
      Hardware(schedule, k + 1, start);
      RequestRefines(Registers(), i, m);
      IdleNotPending(Registers(), i);
      box := box.Set(i, m);
      tsr := TsrAfterRequest(tsr, i);
      accepted := accepted + multiset{frame};
    }

    /** One read of TSR: is mailbox i empty? */
    method ReadTme(i: Word, mask: Word, schedule: nat -> seq<Event>, k: nat, ghost start: Station, ghost cell: Cell) returns (empty: bool)
      requires i < 3 && mask == (if i == 0 then 0x0400_0000 else if i == 1 then 0x0800_0000 else 0x1000_0000)
      requires Reads(i) == k + 1
      requires Untouched(start, cell, schedule, k)
      modifies this
      ensures Untouched(start, cell, schedule, k + 1)
      ensures empty <==> Idle(tsr, i)
      ensures empty <==> !SeenBusy(start, schedule, i)
    {
      hide Idle, FinishCells, FinishSlots, Decode;
      FinishCellsConcat(cell, Events(schedule, k), schedule(k));
      Hardware(schedule, k, start);
      TmeMasks(tsr);
      empty := tsr & mask == mask;
    }

    /** The first of the three mailboxes whose TME bit is seen set; each test reads TSR anew. */
    method SelectMailbox(schedule: nat -> seq<Event>) returns (mailbox: Word)
      requires Registers().Valid()
      modifies this
      ensures mailbox == 4 || mailbox < 3
      ensures Chosen(old(Meaning()), schedule, mailbox)
      ensures Untouched(old(Meaning()), old(Registers()), schedule, Reads(mailbox))
    {
      hide Idle, FinishCells, FinishSlots, Events, Meaning, Registers, Cell.Valid, SeenBusy;
      ghost var start, cell := Meaning(), Registers();
      NoEventsYet(start, cell, schedule);
      assert Untouched(start, cell, schedule, 0);
      hide Untouched, OnlyHardware;
      var empty := ReadTme(0, 0x0400_0000, schedule, 0, start, cell);
      if empty {
        mailbox := 0;
      } else {
        empty := ReadTme(1, 0x0800_0000, schedule, 1, start, cell);
        if empty {
          mailbox := 1;
        } else {
          empty := ReadTme(2, 0x1000_0000, schedule, 2, start, cell);
          mailbox := if empty then 2 else NO_MAILBOX;
        }
      }
    }

    /** Identifier, length and data of the message go into an empty mailbox. */
    method FillMailbox(mailbox: Word, message: TxMessage, schedule: nat -> seq<Event>, n: nat, ghost start: Station) returns (message': TxMessage)
      requires mailbox < 3 && message.Valid() && OnlyHardware(start, schedule, n) && Idle(tsr, mailbox)
      modifies this
      ensures OnlyHardware(start, schedule, n + 10) && Idle(tsr, mailbox)
      ensures Decode(Requesting(box.Get(mailbox))) == Requested(message)
      ensures message' == message.(dlc := message.dlc & 0x0F)
    {
      assert box.Get(mailbox).ir & TXRQ == 0;
      hide FinishCells, FinishSlots, SlotsOf, KeepAndSet, Requesting, Decode, Requested, IdentifierWord, FourBytes, Events, Meaning,
        OnlyHardware, Idle;
      var d := message.data;
      ghost var m0 := box.Get(mailbox);
      NoRequestYet(message);
      UpdateIdentifier(mailbox, TXRQ, 0, schedule, n, start);
      UpdateIdentifier(mailbox, 0xFFFF_FFFF, IdentifierWord(message), schedule, n + 2, start);
      message' := message.(dlc := message.dlc & 0x0F);
      UpdateLength(mailbox, 0xFFFF_FFF0, 0, schedule, n + 4, start);
      UpdateLength(mailbox, 0xFFFF_FFFF, message'.dlc as Word, schedule, n + 6, start);
      WriteData(mailbox, FourBytes(d[0], d[1], d[2], d[3]), FourBytes(d[4], d[5], d[6], d[7]), schedule, n + 8, start);
      FilledDecodes(message, m0, box.Get(mailbox));
    }

    /**
     One call of the driver, whatever the hardware does between its register accesses. A
     message that is accepted ends up pending, unchanged, in a mailbox that was empty when
     its bit was read; everything else is what the hardware alone would have made of the
     state before the call.
     */
    method Transmit(message: TxMessage, schedule: nat -> seq<Event>) returns (mailbox: Word, message': TxMessage)
      requires Valid() && message.Valid()
      modifies this
      ensures Valid()
      ensures mailbox < 3 || mailbox == 4
      ensures Chosen(old(Meaning()), schedule, mailbox)
      ensures mailbox == 4 ==>
        && Registers() == FinishCells(old(Registers()), Events(schedule, 3))
        && Meaning() == FinishSlots(old(Meaning()), Events(schedule, 3))
        && message' == message
      ensures mailbox < 3 ==>
        && Meaning() == Submit(FinishSlots(old(Meaning()), Events(schedule, Reads(mailbox) + 12)), mailbox, Requested(message))
        && !FinishSlots(old(Meaning()), Events(schedule, Reads(mailbox) + 12)).slots.Get(mailbox).Pending?
        && message' == message.(dlc := message.dlc & 0x0F)
    {
      hide FinishCells, FinishSlots, SlotsOf, Requesting, Decode, Requested, Chosen, Events, Station.Balanced, Reads, Idle, Submit,
        Cell.Valid, TxMessage.Valid;
      ghost var start := Meaning();
      ReadsToRefuse();
      message' := message;
      mailbox := SelectMailbox(schedule);
      var n := Reads(mailbox);
      FinishSlotsBalance(start, Events(schedule, n));
      if mailbox != NO_MAILBOX {
        ChosenIsIdle(Registers(), start, schedule, mailbox);
        message' := FillMailbox(mailbox, message, schedule, n, start);
        FinishSlotsBalance(start, Events(schedule, n + 12));
        RequestTransmission(mailbox, Requested(message), schedule, n + 10, start);
        SubmitBalances(FinishSlots(start, Events(schedule, n + 12)), mailbox, Requested(message));
      }
    }

    /**
     The state of a transmission, read from one snapshot of TSR: still pending while the mailbox holds a
     message (and for a number that is no mailbox), then sent or failed as the hardware ended it, failed too
     if nothing is known of the mailbox.
     */
    method TransmitStatus(mailbox: Word) returns (status: Status)
      requires Valid()
      ensures status.StillPending? <==> mailbox > 2 || Meaning().slots.Get(mailbox).Pending?
      ensures status.Ok? <==> mailbox <= 2 && Meaning().slots.Get(mailbox) == Done(true)
      ensures status.Failed? <==> mailbox <= 2 && (Meaning().slots.Get(mailbox) == Done(false) || Meaning().slots.Get(mailbox) == Empty)
      ensures mailbox <= 2 ==> status == StatusOf(Meaning().slots.Get(mailbox))
    {
      hide Decode, Idle, Completed, SentOk, Aborting, Station.Balanced;
      var state: Word := 0;
      if mailbox == 0 {
        state := tsr & 0x0400_0003;
      } else if mailbox == 1 {
        state := tsr & 0x0800_0300;
      } else if mailbox == 2 {
        state := tsr & 0x1003_0000;
      }
      if mailbox < 3 {
        StateBits(tsr, mailbox, state);
      }
      if state == 0 {
        status := StillPending;
      } else if state == 0x0400_0001 || state == 0x0800_0100 || state == 0x1001_0000 {
        status := Failed;
      } else if state == 0x0400_0003 || state == 0x0800_0300 || state == 0x1003_0000 {
        status := Ok;
      } else {
        status := Failed;
      }
    }

    /** Asks for an abort: `TSR |= ABRQ`, a read and a write of the whole register. */
    method CancelTransmit(mailbox: Word, schedule: nat -> seq<Event>)
      requires Valid() && mailbox < 3
      modifies this
      ensures Valid()
      ensures var seen := FinishSlots(old(Meaning()), Events(schedule, 1));
        Meaning() == Cancel(seen, FinishSlots(seen, schedule(1)), mailbox)
    {
      hide Decode, Idle, Completed, SentOk, Aborting, FinishCells, FinishSlots, WriteTsr, WithAbort, SlotOf, Station.Balanced, Cell.Valid, Events;
      ghost var start := Meaning();
      NoEventsYet(start, Registers(), schedule);
      FinishSlotsBalance(start, Events(schedule, 1));
      Hardware(schedule, 0, start);
      var v := tsr;
      ghost var seen := Registers();
      CancelBalances(Meaning(), schedule(1), mailbox);
      Hardware(schedule, 1, start);
      v := WithAbort(v, mailbox);
      CancelRefines(seen, schedule(1), mailbox);
      tsr := WriteTsr(tsr, v);
    }
  }
}
