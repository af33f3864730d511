/**
 The receive side of the bxCAN cell: two FIFOs of three mailboxes, filled by the bus
 while the driver reads the output mailbox field by field and then releases it. FIFO
 behaviour follows RM0008, section 24.7.3.
 */
module CanReceive {
  import opened Bits
  import opened CanFrame

  const FULL: Word := 0x08
  const FOVR: Word := 0x10
  const RFOM: Word := 0x20

  /** The stored messages, oldest first, and the FULL and FOVR flags. */
  datatype Fifo = Fifo(queue: seq<Mailbox>, flags: Word) {
    predicate Valid() { |queue| <= 3 && flags & !(FULL | FOVR) == 0 }

    /** RFxR as the driver reads it. */
    function Rfr(): Word
      requires |queue| <= 3
    {
      flags | Count(|queue|)
    }
  }

  function Popped(q: seq<Mailbox>): seq<Mailbox> {
    if q == [] then [] else q[1..]
  }

  function Count(n: nat): Word
    requires n <= 3
  {
    if n == 0 then 0 else if n == 1 then 1 else if n == 2 then 2 else 3
  }

  /** The two low bits of the register are the number of messages stored, whatever the flags. */
  lemma CountRead(f: Fifo)
    requires f.Valid()
    ensures (f.Rfr() & 3) as nat == |f.queue|
  {
    var n := Count(|f.queue|);
    assert f.Rfr() & 3 == n;
    assert n as nat == |f.queue|;
  }

  /** A message comes in. A full FIFO drops it when locked, and otherwise gives up its newest message for it. */
  function Arrive(f: Fifo, m: Mailbox, locked: bool): Fifo
    requires |f.queue| <= 3
  {
    if |f.queue| < 3 then Fifo(f.queue + [m], if |f.queue| == 2 then f.flags | FULL else f.flags)
    else Fifo(if locked then f.queue else f.queue[2 := m], f.flags | FOVR)
  }

  function ArriveAll(f: Fifo, ms: seq<Mailbox>, locked: bool): (f': Fifo)
    requires f.Valid()
    ensures f'.Valid()
    decreases |ms|
  {
    if ms == [] then f else Arrive(ArriveAll(f, ms[..|ms| - 1], locked), ms[|ms| - 1], locked)
  }

  /** A write to RFxR: ones at FULL and FOVR clear them, RFOM drops the oldest message if there is one. */
  function WriteRfr(f: Fifo, v: Word): Fifo {
    Fifo(if v & 0x20 != 0 && f.queue != [] then f.queue[1..] else f.queue, f.flags & !(v & 0x18))
  }

  /** Arrivals never touch the oldest message, in either mode. */
  lemma {:induction false} HeadStays(f: Fifo, ms: seq<Mailbox>, locked: bool)
    requires f.Valid() && f.queue != []
    ensures ArriveAll(f, ms, locked).queue != [] && ArriveAll(f, ms, locked).queue[0] == f.queue[0]
    decreases |ms|
  {
    if ms != [] {
      HeadStays(f, ms[..|ms| - 1], locked);
    }
  }

  lemma {:induction false} ArriveAllConcat(f: Fifo, ms: seq<Mailbox>, ns: seq<Mailbox>, locked: bool)
    requires f.Valid()
    ensures ArriveAll(f, ms + ns, locked) == ArriveAll(ArriveAll(f, ms, locked), ns, locked)
    decreases |ns|
  {
    hide Fifo.Valid, Arrive;
    if ns == [] {
      assert ms + ns == ms;
    } else {
      ArriveAllConcat(f, ms, ns[..|ns| - 1], locked);
      assert (ms + ns)[..|ms + ns| - 1] == ms + ns[..|ns| - 1];
    }
  }

  /** Everything that arrives before register access n, when `bus(k)` arrives just before access k. */
  function Arrivals(bus: nat -> seq<Mailbox>, n: nat): seq<Mailbox> {
    if n == 0 then [] else Arrivals(bus, n - 1) + bus(n - 1)
  }

  function StdIdOf(m: Mailbox, prior: Word): Word {
    if IsExtended(m.ir) then prior else Masked(StandardId(m.ir), 0x7FF)
  }

  function ExtIdOf(m: Mailbox, prior: Word): Word {
    if IsExtended(m.ir) then Masked(ExtendedId(m.ir), 0x1FFF_FFFF) else prior
  }

  /** The message `CAN_Receive` builds out of one unchanging output mailbox; the inactive identifier keeps its old value. */
  function Unpacked(m: Mailbox, prior: RxMessage): RxMessage {
    RxMessage(StdIdOf(m, prior.stdId), ExtIdOf(m, prior.extId), if IsExtended(m.ir) then ID_EXTENDED else ID_STANDARD,
              if IsRemote(m.ir) then RTR_REMOTE else 0, Length(m.dtr), Byte(m.dtr, 8), DataBytes(m))
  }

  /** Unpacking reads exactly the frame in the mailbox, whatever the message structure held before. */
  lemma UnpackedDescribes(m: Mailbox, prior: RxMessage)
    ensures Described(Unpacked(m, prior)) == Decode(m)
  {
    ActiveIdentifier(m, prior.stdId, prior.extId);
    hide IsExtended, IsRemote, Identifier, Length, Byte, StdIdOf, ExtIdOf;
  }

  lemma ActiveIdentifier(m: Mailbox, stdId: Word, extId: Word)
    ensures Identifier(m.ir) == if IsExtended(m.ir) then ExtIdOf(m, extId) else StdIdOf(m, stdId)
  {
    hide IsExtended, Masked, ExtendedId, StandardId;
    ExtendedBits(m.ir);
    StandardBits(m.ir);
  }

  lemma StandardBits(ir: Word)
    ensures Masked(StandardId(ir), 0x7FF) == StandardId(ir)
  {
  }

  lemma ExtendedBits(ir: Word)
    ensures Masked(ExtendedId(ir), 0x1FFF_FFFF) == ExtendedId(ir)
  {
  }

  /** What the hardware puts into the length and time register beside the message: RM0008, section 24.9.3. */
  datatype Control = Control(time: bv16, fmi: bv8, dlc: bv8)

  function ControlWord(c: Control): Word {
    (c.time as Word << 16) | (c.fmi as Word << 8) | c.dlc as Word
  }

  function ControlOf(dtr: Word): Control {
    Control((dtr >> 16) as bv16, ((dtr >> 8) & 0xFF) as bv8, (dtr & 0x0F) as bv8)
  }

  /** A length of up to fifteen, the index of the filter that matched and the time stamp have bits of their own. */
  lemma ControlRoundTrip(c: Control)
    requires c.dlc <= 0x0F
    ensures ControlOf(ControlWord(c)) == c
  {
  }

  /**
   Unpacking gives the length and the filter match index the hardware put in, whatever the time stamp and the
   four reserved bits; and the identifier of the other type stays as it was.
   */
  lemma UnpackedControl(m: Mailbox, prior: RxMessage, c: Control)
    requires c.dlc <= 0x0F && m.dtr & 0xFFFF_FF0F == ControlWord(c)
    ensures var r := Unpacked(m, prior);
      r.fmi == c.fmi && r.dlc == c.dlc && if r.ide == ID_EXTENDED then r.stdId == prior.stdId else r.extId == prior.extId
  {
    ControlRoundTrip(c);
    ControlMasked(m.dtr);
    hide ControlWord, ControlOf, Length, Byte, IsExtended;
  }

  lemma ControlMasked(dtr: Word)
    ensures ControlOf(dtr & 0xFFFF_FF0F) == ControlOf(dtr)
    ensures ControlOf(dtr).dlc == Length(dtr) && ControlOf(dtr).fmi == Byte(dtr, 8)
  {
  }

  /** How many data bytes go over the bus: none for a remote frame, and never more than eight. */
  function BytesOnBus(remote: bool, dlc: bv8): (n: nat)
    ensures n <= 8
  {
    if remote then 0 else if dlc < 8 then dlc as nat else 8
  }

  /** The part of a frame that goes over the bus. */
  function OnBus(f: Frame): Frame
    requires |f.data| == 8
  {
    f.(data := f.data[..BytesOnBus(f.remote, f.dlc)])
  }

  /** The bus carries identifier, type and length, and the data bytes that count; the others may be anything. */
  predicate Carried(sent: Mailbox, received: Mailbox) {
    && IsExtended(received.ir) == IsExtended(sent.ir) && IsRemote(received.ir) == IsRemote(sent.ir)
    && Identifier(received.ir) == Identifier(sent.ir)
    && Length(received.dtr) == Length(sent.dtr)
    && var n := BytesOnBus(IsRemote(sent.ir), Length(sent.dtr)); DataBytes(received)[..n] == DataBytes(sent)[..n]
  }

  /**
   What one node packs into a transmit mailbox another node unpacks from its FIFO, as far as the bus carries
   it: type, identifier and length, and of a data frame the first data bytes that the length counts.
   */
  lemma SentIsReceived(message: TxMessage, sent: Mailbox, dtr: Word, received: Mailbox, prior: RxMessage)
    requires message.Valid()
    requires sent.ir == IdentifierWord(message) | TXRQ
    requires sent.dtr == (dtr & 0xFFFF_FFF0) | (message.dlc & 0x0F) as Word
    requires sent.dlr == FourBytes(message.data[0], message.data[1], message.data[2], message.data[3])
    requires sent.dhr == FourBytes(message.data[4], message.data[5], message.data[6], message.data[7])
    requires Carried(sent, received)
    ensures OnBus(Described(Unpacked(received, prior))) == OnBus(Requested(message))
  {
    UnpackedDescribes(received, prior);
    PackedDecodes(message, sent, dtr);
    SameOnBus(sent, received);
    hide Decode, Requested, Described, Unpacked;
  }

  lemma SameOnBus(sent: Mailbox, received: Mailbox)
    requires Carried(sent, received)
    ensures OnBus(Decode(received)) == OnBus(Decode(sent))
  {
    hide IsExtended, IsRemote, Identifier, Length, Byte, BytesOnBus;
  }

  // ---------- one call, access by access ----------

  lemma WritePops(f: Fifo, rfr: Word)
    requires f.Valid()
    ensures WriteRfr(f, rfr | RFOM).Valid()
    ensures WriteRfr(f, rfr | RFOM).queue == Popped(f.queue)
  {
    assert (rfr | RFOM) & RFOM != 0;
  }

  function TypeField(ir: Word): bv8 { (ir & 0x04) as bv8 }

  function RemoteField(ir: Word): bv8 { (ir & 0x02) as bv8 }

  lemma IdentifierFields(ir: Word)
    ensures TypeField(ir) == if IsExtended(ir) then ID_EXTENDED else ID_STANDARD
    ensures RemoteField(ir) == if IsRemote(ir) then RTR_REMOTE else 0
  {
  }

  /** The mailbox a read at access k finds: the oldest message, or what the registers show while there is none. */
  function SeenAt(f: Fifo, bus: nat -> seq<Mailbox>, stale: nat -> Mailbox, locked: bool, k: nat): Mailbox
    requires f.Valid()
  {
    var q := ArriveAll(f, Arrivals(bus, k + 1), locked).queue;
    if q != [] then q[0] else stale(k)
  }

  /** The message a call puts together from its thirteen reads, each of which may find another mailbox. */
  function Assembled(f: Fifo, bus: nat -> seq<Mailbox>, stale: nat -> Mailbox, locked: bool, prior: RxMessage): RxMessage
    requires f.Valid()
  {
    var seen := (k: nat) requires f.Valid() => SeenAt(f, bus, stale, locked, k);
    var extended := IsExtended(seen(0).ir);
    RxMessage(
      if extended then prior.stdId else Masked(StandardId(seen(1).ir), 0x7FF),
      if extended then Masked(ExtendedId(seen(1).ir), 0x1FFF_FFFF) else prior.extId,
      if extended then ID_EXTENDED else ID_STANDARD,
      if IsRemote(seen(2).ir) then RTR_REMOTE else 0,
      Length(seen(3).dtr), Byte(seen(4).dtr, 8),
      [Byte(seen(5).dlr, 0), Byte(seen(6).dlr, 8), Byte(seen(7).dlr, 16), Byte(seen(8).dlr, 24),
       Byte(seen(9).dhr, 0), Byte(seen(10).dhr, 8), Byte(seen(11).dhr, 16), Byte(seen(12).dhr, 24)])
  }

  function FirstSeen(f: Fifo, bus: nat -> seq<Mailbox>, locked: bool): seq<Mailbox>
    requires f.Valid()
  {
    ArriveAll(f, bus(0), locked).queue
  }

  function AtRelease(f: Fifo, bus: nat -> seq<Mailbox>, locked: bool): seq<Mailbox>
    requires f.Valid()
  {
    ArriveAll(f, Arrivals(bus, 15), locked).queue
  }

  /** A message stored at access j is the one every later access finds. */
  lemma {:induction false} HeadSeen(f: Fifo, bus: nat -> seq<Mailbox>, locked: bool, j: nat, k: nat)
    requires f.Valid() && j <= k && ArriveAll(f, Arrivals(bus, j), locked).queue != []
    ensures var q := ArriveAll(f, Arrivals(bus, k), locked).queue;
      q != [] && q[0] == ArriveAll(f, Arrivals(bus, j), locked).queue[0]
    decreases k
  {
    hide ArriveAll, Fifo.Valid;
    if j < k {
      HeadSeen(f, bus, locked, j, k - 1);
      ArriveAllConcat(f, Arrivals(bus, k - 1), bus(k - 1), locked);
      HeadStays(ArriveAll(f, Arrivals(bus, k - 1), locked), bus(k - 1), locked);
    }
  }

  lemma FirstIsAtOne(f: Fifo, bus: nat -> seq<Mailbox>, locked: bool)
    requires f.Valid()
    ensures ArriveAll(f, Arrivals(bus, 1), locked).queue == FirstSeen(f, bus, locked)
  {
    assert Arrivals(bus, 1) == Arrivals(bus, 0) + bus(0) == bus(0);
  }

  /** A message stored at the first read is the one the call releases. */
  lemma SeenIsReleased(f: Fifo, bus: nat -> seq<Mailbox>, locked: bool)
    requires f.Valid() && FirstSeen(f, bus, locked) != []
    ensures AtRelease(f, bus, locked) != [] && AtRelease(f, bus, locked)[0] == FirstSeen(f, bus, locked)[0]
  {
    hide ArriveAll, Fifo.Valid, Arrivals, FirstSeen;
    FirstIsAtOne(f, bus, locked);
    HeadSeen(f, bus, locked, 1, 15);
  }

  /** And it is what the call returns. */
  lemma SeenIsReturned(f: Fifo, bus: nat -> seq<Mailbox>, stale: nat -> Mailbox, locked: bool, prior: RxMessage)
    requires f.Valid() && FirstSeen(f, bus, locked) != []
    ensures Assembled(f, bus, stale, locked, prior) == Unpacked(FirstSeen(f, bus, locked)[0], prior)
  {
    hide ArriveAll, Fifo.Valid, Arrivals, IsExtended, IsRemote, Length, Byte, Masked, StandardId, ExtendedId, FirstSeen;
    FirstIsAtOne(f, bus, locked);
    var m := FirstSeen(f, bus, locked)[0];
    forall k: nat
      ensures SeenAt(f, bus, stale, locked, k) == m
    {
      HeadSeen(f, bus, locked, 1, k + 1);
    }
  }

  /** A call that starts with a message stored has it at its first read. */
  lemma PendingIsSeen(f: Fifo, bus: nat -> seq<Mailbox>, locked: bool)
    requires f.Valid() && f.queue != []
    ensures FirstSeen(f, bus, locked) != [] && FirstSeen(f, bus, locked)[0] == f.queue[0]
  {
    HeadStays(f, bus(0), locked);
  }

  /**
   A call returns the frame it releases, whatever the registers of an empty FIFO show, exactly when a message
   is stored at its first read or none has come in by the release.
   */
  lemma DeliversWhatItReleases(f: Fifo, bus: nat -> seq<Mailbox>, locked: bool, prior: RxMessage)
    requires f.Valid()
    ensures (forall stale: nat -> Mailbox :: AtRelease(f, bus, locked) != [] ==>
              Described(Assembled(f, bus, stale, locked, prior)) == Decode(AtRelease(f, bus, locked)[0]))
      <==> FirstSeen(f, bus, locked) != [] || AtRelease(f, bus, locked) == []
  {
    hide Assembled, AtRelease, FirstSeen, Described, Decode, Unpacked, Fifo.Valid;
    if FirstSeen(f, bus, locked) != [] {
      SeenIsReleased(f, bus, locked);
      forall stale: nat -> Mailbox
        ensures Described(Assembled(f, bus, stale, locked, prior)) == Decode(AtRelease(f, bus, locked)[0])
      {
        SeenIsReturned(f, bus, stale, locked, prior);
        UnpackedDescribes(FirstSeen(f, bus, locked)[0], prior);
      }
    } else if AtRelease(f, bus, locked) != [] {
      TypeIsStale(f, bus, locked, prior);
    }
  }

  /** Registers that show the other identifier type. */
  function OtherType(m: Mailbox): nat -> Mailbox {
    (k: nat) => m.(ir := Flipped(m.ir))
  }

  function Flipped(ir: Word): Word { ir ^ 4 }

  lemma TypeIsStale(f: Fifo, bus: nat -> seq<Mailbox>, locked: bool, prior: RxMessage)
    requires f.Valid() && FirstSeen(f, bus, locked) == [] && AtRelease(f, bus, locked) != []
    ensures var m := AtRelease(f, bus, locked)[0];
      Described(Assembled(f, bus, OtherType(m), locked, prior)) != Decode(m)
  {
    hide AtRelease, FirstSeen, Decode, Flipped, Assembled;
    var m := AtRelease(f, bus, locked)[0];
    var stale := OtherType(m);
    TypeSeen(f, bus, stale, locked, prior);
    TypeFlips(m.ir);
    TypeOf(m);
  }

  lemma TypeOf(m: Mailbox)
    ensures Decode(m).extended == IsExtended(m.ir)
  {
  }

  /** The identifier type is what the first read finds. */
  lemma TypeSeen(f: Fifo, bus: nat -> seq<Mailbox>, stale: nat -> Mailbox, locked: bool, prior: RxMessage)
    requires f.Valid() && FirstSeen(f, bus, locked) == []
    ensures Described(Assembled(f, bus, stale, locked, prior)).extended == IsExtended(stale(0).ir)
  {
    hide ArriveAll, Arrivals, IsExtended, IsRemote, Length, Byte, Masked, StandardId, ExtendedId, FirstSeen;
    FirstIsAtOne(f, bus, locked);
    assert SeenAt(f, bus, stale, locked, 0) == stale(0);
    hide SeenAt;
  }

  lemma TypeFlips(ir: Word)
    ensures IsExtended(Flipped(ir)) != IsExtended(ir)
  {
  }

  // ---------- what becomes of every message ----------

  datatype Fate = Stored | Delivered | Overrun | Unread

  /** One arrival: whether the FIFO was full when it came, and what has become of it. */
  datatype Entry = Entry(m: Mailbox, onFull: bool, fate: Fate)

  /** The FIFO with every arrival in order, and the numbers of those stored and of those delivered. */
  datatype Ledger = Ledger(fifo: Fifo, arrived: seq<Entry>, stored: seq<nat>, delivered: seq<nat>) {
    /** The numbers of the stored messages match the FIFO. */
    predicate Matches() {
      && fifo.Valid() && |stored| == |fifo.queue|
      && forall i :: 0 <= i < |stored| ==> stored[i] < |arrived| && fifo.queue[i] == arrived[stored[i]].m
    }
  }

  function Came(l: Ledger, m: Mailbox, locked: bool): Ledger
    requires l.Matches()
  {
    var n := |l.arrived|;
    if |l.stored| < 3 then
      l.(fifo := Arrive(l.fifo, m, locked), arrived := l.arrived + [Entry(m, false, Stored)], stored := l.stored + [n])
    else if locked then
      l.(fifo := Arrive(l.fifo, m, locked), arrived := l.arrived + [Entry(m, true, Overrun)])
    else
      var newest := l.stored[2];
      l.(fifo := Arrive(l.fifo, m, locked), stored := l.stored[2 := n],
         arrived := l.arrived[newest := l.arrived[newest].(fate := Overrun)] + [Entry(m, true, Stored)])
  }

  lemma CameMatches(l: Ledger, m: Mailbox, locked: bool)
    requires l.Matches()
    ensures Came(l, m, locked).Matches() && Came(l, m, locked).fifo == Arrive(l.fifo, m, locked)
  {
  }

  function AllCame(l: Ledger, ms: seq<Mailbox>, locked: bool): (l': Ledger)
    requires l.Matches()
    ensures l'.Matches() && l'.fifo == ArriveAll(l.fifo, ms, locked)
    decreases |ms|
  {
    if ms == [] then l else
      var p := AllCame(l, ms[..|ms| - 1], locked);
      CameMatches(p, ms[|ms| - 1], locked);
      Came(p, ms[|ms| - 1], locked)
  }

  /** The oldest message leaves the FIFO, read by the call or not. */
  function Released(l: Ledger, rfr: Word, read: bool): Ledger
    requires l.Matches()
  {
    var f := WriteRfr(l.fifo, rfr | RFOM);
    if l.stored == [] then l.(fifo := f) else
      var k := l.stored[0];
      l.(fifo := f, stored := l.stored[1..], delivered := if read then l.delivered + [k] else l.delivered,
         arrived := l.arrived[k := l.arrived[k].(fate := if read then Delivered else Unread)])
  }

  /** One call of the driver: fifteen accesses, the last two a read and a write of the release register. */
  function Called(l: Ledger, bus: nat -> seq<Mailbox>, locked: bool): Ledger
    requires l.Matches()
  {
    Released(AllCame(l, Arrivals(bus, 15), locked), AllCame(l, Arrivals(bus, 14), locked).fifo.Rfr(),
             FirstSeen(l.fifo, bus, locked) != [])
  }

  predicate Increasing(s: seq<nat>) { forall i, j :: 0 <= i < j < |s| ==> s[i] < s[j] }

  predicate Below(s: seq<nat>, n: nat) { forall i :: 0 <= i < |s| ==> s[i] < n }

  /** Delivered before stored, each in the order of arrival. */
  predicate Ordered(l: Ledger) { Increasing(l.delivered + l.stored) && Below(l.delivered + l.stored, |l.arrived|) }

  /** The numbers kept are those with that fate; everything else was lost to an overrun or released unread. */
  predicate Numbered(l: Ledger) {
    && (forall k :: 0 <= k < |l.arrived| ==> (l.arrived[k].fate == Stored <==> k in l.stored))
    && (forall k :: 0 <= k < |l.arrived| ==> (l.arrived[k].fate == Delivered <==> k in l.delivered))
  }

  /**
   Whether an overrun cost message k: locked, if it came to a full FIFO; unlocked, if the one after it did.
   */
  predicate Missing(l: Ledger, k: nat, locked: bool)
    requires k < |l.arrived|
  {
    if locked then l.arrived[k].onFull else k + 1 < |l.arrived| && l.arrived[k + 1].onFull
  }

  /** Exactly those messages are lost; unlocked, the newest stored message is the last that came. */
  predicate Overruns(l: Ledger, locked: bool) {
    && (!locked && l.stored != [] ==> l.stored[|l.stored| - 1] == |l.arrived| - 1)
    && forall k :: 0 <= k < |l.arrived| ==> (l.arrived[k].fate == Overrun <==> Missing(l, k, locked))
  }

  /** Every arrival is accounted for. */
  predicate Sound(l: Ledger, locked: bool) {
    l.Matches() && Ordered(l) && Numbered(l) && Overruns(l, locked)
  }

  lemma Appended(s: seq<nat>, n: nat)
    requires Increasing(s) && Below(s, n)
    ensures Increasing(s + [n]) && Below(s + [n], n + 1)
  {
  }

  lemma Shortened(s: seq<nat>, k: nat, n: nat)
    requires Increasing(s) && Below(s, n) && k < |s|
    ensures Increasing(s[..k] + s[k + 1..]) && Below(s[..k] + s[k + 1..], n)
  {
  }

  /** No number is both delivered and stored, and none is stored twice. */
  lemma Apart(l: Ledger, i: nat, k: nat)
    requires Ordered(l) && i < |l.stored| && l.stored[i] == k
    ensures k !in l.delivered && forall j :: 0 <= j < |l.stored| && l.stored[j] == k ==> j == i
  {
    var s := l.delivered + l.stored;
    assert s[|l.delivered| + i] == k;
    forall j | 0 <= j < |l.delivered|
      ensures l.delivered[j] != k
    {
      assert s[j] == l.delivered[j];
    }
    forall j | 0 <= j < |l.stored| && l.stored[j] == k
      ensures j == i
    {
      assert s[|l.delivered| + j] == k;
    }
  }

  lemma CameOrdered(l: Ledger, m: Mailbox, locked: bool)
    requires l.Matches() && Ordered(l)
    ensures Ordered(Came(l, m, locked))
  {
    assert |l.stored| <= 3;
    hide Arrive, Fifo.Valid;
    var s, n, l' := l.delivered + l.stored, |l.arrived|, Came(l, m, locked);
    if |l.stored| < 3 {
      Appended(s, n);
      assert l'.delivered + l'.stored == s + [n];
    } else if !locked {
      Shortened(s, |s| - 1, n);
      Appended(s[..|s| - 1], n);
      assert s[..|s| - 1] + s[|s| - 1 + 1..] == s[..|s| - 1];
      assert l'.delivered + l'.stored == s[..|s| - 1] + [n];
    }
  }

  lemma CameNumbered(l: Ledger, m: Mailbox, locked: bool)
    requires l.Matches() && Ordered(l) && Numbered(l)
    ensures Numbered(Came(l, m, locked))
  {
    RoomLeft(l);
    BothBelow(l);
    hide Arrive, Fifo.Valid, Ordered;
    if |l.stored| == 3 && !locked {
      Apart(l, 2, l.stored[2]);
      ReplacesNewest(l, m);
    } else {
      var n, l' := |l.arrived|, Came(l, m, locked);
      assert n !in l.stored && n !in l.delivered;
      assert forall k :: 0 <= k < n ==> l'.arrived[k] == l.arrived[k];
      assert forall k :: 0 <= k < n ==> (k in l'.stored <==> k in l.stored);
    }
  }

  /** An unlocked overrun: the newest stored number gives way to the new one. */
  lemma ReplacesNewest(l: Ledger, m: Mailbox)
    requires l.Matches() && Numbered(l) && |l.stored| == 3
    requires Below(l.delivered, |l.arrived|) && Below(l.stored, |l.arrived|)
    requires l.stored[2] !in l.delivered && l.stored[0] != l.stored[2] && l.stored[1] != l.stored[2]
    ensures Numbered(Came(l, m, false))
  {
    hide Arrive, Fifo.Valid;
    var n, old2, l' := |l.arrived|, l.stored[2], Came(l, m, false);
    assert l'.stored == [l.stored[0], l.stored[1], n] && l.stored == [l.stored[0], l.stored[1], old2];
    forall k | 0 <= k < n && k != old2
      ensures l'.arrived[k] == l.arrived[k] && (k in l'.stored <==> k in l.stored)
    {
    }
    assert old2 !in l'.stored && n !in l.delivered;
  }

  lemma RoomLeft(l: Ledger)
    requires l.Matches()
    ensures |l.stored| <= 3
  {
  }

  lemma BothBelow(l: Ledger)
    requires Ordered(l)
    ensures Below(l.delivered, |l.arrived|) && Below(l.stored, |l.arrived|)
  {
    var s := l.delivered + l.stored;
    assert forall i :: 0 <= i < |l.delivered| ==> s[i] == l.delivered[i];
    assert forall i :: 0 <= i < |l.stored| ==> s[|l.delivered| + i] == l.stored[i];
  }

  lemma CameOverruns(l: Ledger, m: Mailbox, locked: bool)
    requires l.Matches() && Overruns(l, locked)
    ensures Overruns(Came(l, m, locked), locked)
  {
    assert |l.stored| <= 3;
    hide Arrive, Fifo.Valid;
    var n, l' := |l.arrived|, Came(l, m, locked);
    forall k | 0 <= k < n + 1
      ensures l'.arrived[k].fate == Overrun <==> Missing(l', k, locked)
    {
      if k < n {
        assert l.arrived[k].fate == Overrun <==> Missing(l, k, locked);
      }
    }
  }

  lemma CameSound(l: Ledger, m: Mailbox, locked: bool)
    requires Sound(l, locked)
    ensures Sound(Came(l, m, locked), locked)
  {
    CameMatches(l, m, locked);
    CameOrdered(l, m, locked);
    CameNumbered(l, m, locked);
    CameOverruns(l, m, locked);
  }

  lemma ReleasedMatches(l: Ledger, rfr: Word, read: bool)
    requires l.Matches()
    ensures Released(l, rfr, read).Matches() && Released(l, rfr, read).fifo == WriteRfr(l.fifo, rfr | RFOM)
  {
    WritePops(l.fifo, rfr);
    hide WriteRfr, Fifo.Valid;
  }

  lemma ReleasedOrdered(l: Ledger, rfr: Word, read: bool)
    requires l.Matches() && Ordered(l)
    ensures Ordered(Released(l, rfr, read))
  {
    hide WriteRfr, Fifo.Valid;
    if l.stored != [] {
      var s, d, l' := l.delivered + l.stored, |l.delivered|, Released(l, rfr, read);
      if read {
        assert l'.delivered + l'.stored == s;
      } else {
        Shortened(s, d, |l.arrived|);
        assert l'.delivered + l'.stored == s[..d] + s[d + 1..];
      }
    }
  }

  lemma ReleasedNumbered(l: Ledger, rfr: Word, read: bool)
    requires l.Matches() && Ordered(l) && Numbered(l)
    ensures Numbered(Released(l, rfr, read))
  {
    hide WriteRfr, Fifo.Valid;
    if l.stored != [] {
      Apart(l, 0, l.stored[0]);
      assert l.stored == [l.stored[0]] + l.stored[1..];
    }
  }

  lemma ReleasedOverruns(l: Ledger, rfr: Word, read: bool, locked: bool)
    requires l.Matches() && Numbered(l) && Overruns(l, locked)
    ensures Overruns(Released(l, rfr, read), locked)
  {
    hide WriteRfr, Fifo.Valid, Overruns;
    if l.stored == [] {
      SameOverruns(l, Released(l, rfr, read), locked);
    } else {
      var k0 := l.stored[0];
      assert k0 in l.stored;
      assert l.arrived[k0].fate == Stored;
      SameOverruns(l, Released(l, rfr, read), locked);
    }
  }

  /** Overruns depend only on which messages came to a full FIFO. */
  lemma SameOverruns(l: Ledger, l': Ledger, locked: bool)
    requires Overruns(l, locked) && |l'.arrived| == |l.arrived|
    requires forall k :: 0 <= k < |l.arrived| ==>
      l'.arrived[k].onFull == l.arrived[k].onFull && (l'.arrived[k].fate == Overrun <==> l.arrived[k].fate == Overrun)
    requires l'.stored != [] ==> l.stored != [] && l'.stored[|l'.stored| - 1] == l.stored[|l.stored| - 1]
    ensures Overruns(l', locked)
  {
    forall k | 0 <= k < |l.arrived|
      ensures l'.arrived[k].fate == Overrun <==> Missing(l', k, locked)
    {
      assert l.arrived[k].fate == Overrun <==> Missing(l, k, locked);
    }
  }

  lemma ReleasedSound(l: Ledger, rfr: Word, read: bool, locked: bool)
    requires Sound(l, locked)
    ensures Sound(Released(l, rfr, read), locked)
  {
    ReleasedMatches(l, rfr, read);
    ReleasedOrdered(l, rfr, read);
    ReleasedNumbered(l, rfr, read);
    ReleasedOverruns(l, rfr, read, locked);
    hide WriteRfr, Fifo.Valid, Ordered, Numbered, Overruns, Ledger.Matches;
  }

  lemma {:induction false} AllCameSound(l: Ledger, ms: seq<Mailbox>, locked: bool)
    requires Sound(l, locked)
    ensures Sound(AllCame(l, ms, locked), locked)
    decreases |ms|
  {
    hide Ordered, Numbered, Overruns, Came;
    if ms != [] {
      AllCameSound(l, ms[..|ms| - 1], locked);
      CameSound(AllCame(l, ms[..|ms| - 1], locked), ms[|ms| - 1], locked);
    }
  }

  /** The order and the fates survive a call, whatever comes in between its accesses. */
  lemma CalledSound(l: Ledger, bus: nat -> seq<Mailbox>, locked: bool)
    requires Sound(l, locked)
    ensures Sound(Called(l, bus, locked), locked)
  {
    hide Ordered, Numbered, Overruns, AllCame, Released, ArriveAll, Arrivals, Fifo.Rfr;
    AllCameSound(l, Arrivals(bus, 15), locked);
    ReleasedSound(AllCame(l, Arrivals(bus, 15), locked), AllCame(l, Arrivals(bus, 14), locked).fifo.Rfr(),
                  FirstSeen(l.fifo, bus, locked) != [], locked);
  }

  // Everything that came is in the ledger, in order.

  function Messages(arrived: seq<Entry>): seq<Mailbox> { seq(|arrived|, i requires 0 <= i < |arrived| => arrived[i].m) }

  lemma CameRecorded(l: Ledger, m: Mailbox, locked: bool)
    requires l.Matches()
    ensures Messages(Came(l, m, locked).arrived) == Messages(l.arrived) + [m]
  {
    hide Arrive, Fifo.Valid;
  }

  lemma {:induction false} AllCameRecorded(l: Ledger, ms: seq<Mailbox>, locked: bool)
    requires l.Matches()
    ensures Messages(AllCame(l, ms, locked).arrived) == Messages(l.arrived) + ms
    decreases |ms|
  {
    hide Came, Ledger.Matches, Messages;
    if ms == [] {
      assert Messages(l.arrived) + ms == Messages(l.arrived);
    } else {
      AllCameRecorded(l, ms[..|ms| - 1], locked);
      CameRecorded(AllCame(l, ms[..|ms| - 1], locked), ms[|ms| - 1], locked);
      assert ms == ms[..|ms| - 1] + [ms[|ms| - 1]];
    }
  }

  lemma ReleasedRecorded(l: Ledger, rfr: Word, read: bool)
    requires l.Matches()
    ensures Messages(Released(l, rfr, read).arrived) == Messages(l.arrived)
  {
    hide WriteRfr, Fifo.Valid;
  }

  // Which messages are released unread.

  ghost predicate AllRead(l: Ledger) { forall k :: 0 <= k < |l.arrived| ==> l.arrived[k].fate != Unread }

  /** The call has a message at its first read, or none by the release. */
  predicate Attentive(f: Fifo, bus: nat -> seq<Mailbox>, locked: bool)
    requires f.Valid()
  {
    FirstSeen(f, bus, locked) != [] || AtRelease(f, bus, locked) == []
  }

  lemma CameRead(l: Ledger, m: Mailbox, locked: bool)
    requires Sound(l, locked)
    ensures AllRead(Came(l, m, locked)) <==> AllRead(l)
  {
    assert |l.stored| <= 3;
    hide Arrive, Fifo.Valid, Ordered, Overruns;
    var l' := Came(l, m, locked);
    if |l.stored| == 3 && !locked {
      assert l.stored[2] in l.stored;
    }
    forall k | 0 <= k < |l.arrived|
      ensures l'.arrived[k].fate == Unread <==> l.arrived[k].fate == Unread
    {
    }
  }

  lemma {:induction false} AllCameRead(l: Ledger, ms: seq<Mailbox>, locked: bool)
    requires Sound(l, locked)
    ensures AllRead(AllCame(l, ms, locked)) <==> AllRead(l)
    decreases |ms|
  {
    hide Ledger.Matches, Ordered, Numbered, Overruns, Came, AllRead;
    if ms != [] {
      AllCameRead(l, ms[..|ms| - 1], locked);
      AllCameSound(l, ms[..|ms| - 1], locked);
      CameRead(AllCame(l, ms[..|ms| - 1], locked), ms[|ms| - 1], locked);
    }
  }

  lemma ReleasedRead(l: Ledger, rfr: Word, read: bool, locked: bool)
    requires Sound(l, locked)
    ensures AllRead(Released(l, rfr, read)) <==> AllRead(l) && (read || l.fifo.queue == [])
  {
    hide WriteRfr, Fifo.Valid, Ordered, Overruns;
    if l.stored != [] {
      var l', k0 := Released(l, rfr, read), l.stored[0];
      assert k0 in l.stored;
      assert l'.arrived[k0].fate == Unread <==> !read;
      forall k | 0 <= k < |l.arrived| && k != k0
        ensures l'.arrived[k] == l.arrived[k]
      {
      }
    }
  }

  /** A call releases a message unread exactly when it is not attentive. */
  lemma CalledRead(l: Ledger, bus: nat -> seq<Mailbox>, locked: bool)
    requires Sound(l, locked)
    ensures AllRead(Called(l, bus, locked)) <==> AllRead(l) && Attentive(l.fifo, bus, locked)
  {
    hide Ordered, Numbered, Overruns, AllRead, Released, ArriveAll, Arrivals, Fifo.Rfr, FirstSeen;
    AllCameSound(l, Arrivals(bus, 15), locked);
    AllCameRead(l, Arrivals(bus, 15), locked);
    ReleasedRead(AllCame(l, Arrivals(bus, 15), locked), AllCame(l, Arrivals(bus, 14), locked).fifo.Rfr(),
                 FirstSeen(l.fifo, bus, locked) != [], locked);
  }

  // ---------- the overrun flag ----------

  /** FOVR: a message came to a full FIFO since the flag was last cleared. */
  predicate Overran(f: Fifo) { f.flags & 0x10 != 0 }

  lemma ArriveFlags(f: Fifo, m: Mailbox, locked: bool)
    requires |f.queue| <= 3
    ensures Overran(Arrive(f, m, locked)) <==> Overran(f) || |f.queue| == 3
  {
  }

  /** Arrivals raise the flag exactly when there are more of them than the FIFO has room for. */
  lemma {:induction false} ArrivalsOverrun(f: Fifo, ms: seq<Mailbox>, locked: bool)
    requires f.Valid()
    ensures Overran(ArriveAll(f, ms, locked)) <==> Overran(f) || |f.queue| + |ms| > 3
    ensures |ArriveAll(f, ms, locked).queue| == if |f.queue| + |ms| > 3 then 3 else |f.queue| + |ms|
    decreases |ms|
  {
    hide Overran;
    if ms != [] {
      ArrivalsOverrun(f, ms[..|ms| - 1], locked);
      ArriveFlags(ArriveAll(f, ms[..|ms| - 1], locked), ms[|ms| - 1], locked);
    }
  }

  lemma WriteClearsOverrun(f: Fifo, seen: Fifo)
    requires seen.Valid()
    ensures Overran(WriteRfr(f, seen.Rfr() | RFOM)) <==> Overran(f) && !Overran(seen)
  {
    var rfr := seen.Rfr();
    assert Count(|seen.queue|) & 0x10 == 0;
    assert rfr & 0x10 == seen.flags & 0x10;
    ClearsSeen(f.flags, rfr);
    hide Fifo.Rfr, Fifo.Valid, Count;
  }

  lemma ClearsSeen(flags: Word, rfr: Word)
    ensures flags & !((rfr | RFOM) & 0x18) & 0x10 != 0 <==> flags & 0x10 != 0 && rfr & 0x10 == 0
  {
  }

  /**
   Releasing a message writes back the flags that were read, and a one there clears its flag: after a call
   the overrun flag is up exactly if the overrun came between the last read and the write, so every overrun
   the caller might still have asked for is forgotten.
   */
  lemma CallForgetsOverrun(l: Ledger, bus: nat -> seq<Mailbox>, locked: bool)
    requires l.Matches()
    ensures var read := AllCame(l, Arrivals(bus, 14), locked).fifo;
      Overran(Called(l, bus, locked).fifo) <==> !Overran(read) && |read.queue| + |bus(14)| > 3
  {
    MatchesValid(l);
    hide ArriveAll, AllCame, Released, WriteRfr, Overran, Ledger.Matches, FirstSeen;
    var read, last := AllCame(l, Arrivals(bus, 14), locked), AllCame(l, Arrivals(bus, 15), locked);
    MatchesValid(read);
    AllCameConcat(l, Arrivals(bus, 14), bus(14), locked);
    ArrivalsOverrun(read.fifo, bus(14), locked);
    ReleasedMatches(last, read.fifo.Rfr(), FirstSeen(l.fifo, bus, locked) != []);
    WriteClearsOverrun(last.fifo, read.fifo);
  }

  // ---------- every run of calls, with traffic between and during them ----------

  datatype Step = Traffic(ms: seq<Mailbox>) | Call(bus: nat -> seq<Mailbox>)

  ghost function After(l: Ledger, step: Step, locked: bool): Ledger
    requires l.Matches()
  {
    match step
    case Traffic(ms) => AllCame(l, ms, locked)
    case Call(bus) => Called(l, bus, locked)
  }

  lemma AfterSound(l: Ledger, step: Step, locked: bool)
    requires Sound(l, locked)
    ensures Sound(After(l, step, locked), locked)
  {
    hide Ordered, Numbered, Overruns, Called, Ledger.Matches;
    match step
    case Traffic(ms) => AllCameSound(l, ms, locked);
    case Call(bus) => CalledSound(l, bus, locked);
  }

  /** A run from a sound ledger; it stays sound: order kept, every arrival with one fate, overruns exactly as the mode says. */
  ghost function Run(l: Ledger, steps: seq<Step>, locked: bool): (r: Ledger)
    requires Sound(l, locked)
    ensures Sound(r, locked)
    decreases |steps|
  {
    if |steps| == 0 then l else
      var p := Run(l, steps[..|steps| - 1], locked);
      AfterSound(p, steps[|steps| - 1], locked);
      After(p, steps[|steps| - 1], locked)
  }

  /** What `Receive` promises is one step of a run, */
  lemma CallIsRun(l: Ledger, bus: nat -> seq<Mailbox>, locked: bool)
    requires Sound(l, locked)
    ensures Run(l, [Call(bus)], locked) == Called(l, bus, locked)
  {
    hide Sound, Called;
    var steps := [Call(bus)];
    assert |steps[..0]| == 0 && Run(l, steps[..0], locked) == l;
  }

  /** and runs compose, so any sequence of calls with traffic in between is a run. */
  lemma {:induction false} RunConcat(l: Ledger, a: seq<Step>, b: seq<Step>, locked: bool)
    requires Sound(l, locked)
    ensures Run(l, a + b, locked) == Run(Run(l, a, locked), b, locked)
    decreases |b|
  {
    hide Sound, After;
    if |b| == 0 {
      assert a + b == a;
    } else {
      var n := |b| - 1;
      RunConcat(l, a, b[..n], locked);
      assert (a + b)[..|a + b| - 1] == a + b[..n];
    }
  }

  /** What comes in during a step. */
  ghost function Incoming(step: Step): seq<Mailbox> {
    match step
    case Traffic(ms) => ms
    case Call(bus) => Arrivals(bus, 15)
  }

  ghost function AllIncoming(steps: seq<Step>): seq<Mailbox>
    decreases |steps|
  {
    if |steps| == 0 then [] else AllIncoming(steps[..|steps| - 1]) + Incoming(steps[|steps| - 1])
  }

  lemma AfterRecorded(l: Ledger, step: Step, locked: bool)
    requires l.Matches()
    ensures Messages(After(l, step, locked).arrived) == Messages(l.arrived) + Incoming(step)
  {
    assert l.fifo.Valid();
    hide Ledger.Matches, Messages, AllCame, Released, Arrivals, ArriveAll, FirstSeen, Fifo.Rfr;
    match step
    case Traffic(ms) => AllCameRecorded(l, ms, locked);
    case Call(bus) =>
      AllCameRecorded(l, Arrivals(bus, 15), locked);
      ReleasedRecorded(AllCame(l, Arrivals(bus, 15), locked), AllCame(l, Arrivals(bus, 14), locked).fifo.Rfr(),
                       FirstSeen(l.fifo, bus, locked) != []);
  }

  /** In every run, everything that comes in, between calls or during them, is recorded once and in order. */
  lemma {:induction false} RunRecords(l: Ledger, steps: seq<Step>, locked: bool)
    requires Sound(l, locked)
    ensures Messages(Run(l, steps, locked).arrived) == Messages(l.arrived) + AllIncoming(steps)
    decreases |steps|
  {
    hide Sound, Messages, After, Incoming;
    if |steps| == 0 {
      assert Messages(l.arrived) + [] == Messages(l.arrived);
    } else {
      var n := |steps| - 1;
      RunRecords(l, steps[..n], locked);
      RunMatches(l, steps[..n], locked);
      AfterRecorded(Run(l, steps[..n], locked), steps[n], locked);
    }
  }

  lemma RunMatches(l: Ledger, steps: seq<Step>, locked: bool)
    requires Sound(l, locked)
    ensures Run(l, steps, locked).Matches()
  {
  }

  /** No call of the run releases a message unread. */
  ghost predicate AllAttentive(l: Ledger, steps: seq<Step>, locked: bool)
    requires Sound(l, locked)
    decreases |steps|
  {
    |steps| == 0 ||
    (var n, p := |steps| - 1, Run(l, steps[..|steps| - 1], locked);
     AllAttentive(l, steps[..n], locked) && (steps[n].Call? ==> Attentive(p.fifo, steps[n].bus, locked)))
  }

  /** Every call of the run starts with a message stored, as `CAN_MessagePending` shows. */
  ghost predicate AllPending(l: Ledger, steps: seq<Step>, locked: bool)
    requires Sound(l, locked)
    decreases |steps|
  {
    |steps| == 0 ||
    (var n, p := |steps| - 1, Run(l, steps[..|steps| - 1], locked);
     AllPending(l, steps[..n], locked) && (steps[n].Call? ==> p.fifo.queue != []))
  }

  /** In every run, no message is released unread exactly when each call is attentive. */
  lemma {:induction false} RunReadsAll(l: Ledger, steps: seq<Step>, locked: bool)
    requires Sound(l, locked)
    ensures AllRead(Run(l, steps, locked)) <==> AllRead(l) && AllAttentive(l, steps, locked)
    decreases |steps|
  {
    hide Ordered, Numbered, Overruns, AllRead, Called, AllCame, Attentive;
    if |steps| != 0 {
      var n := |steps| - 1;
      var p := Run(l, steps[..n], locked);
      RunReadsAll(l, steps[..n], locked);
      match steps[n]
      case Traffic(ms) => AllCameRead(p, ms, locked);
      case Call(bus) => CalledRead(p, bus, locked);
    }
  }

  /** Asking before each call is enough: then nothing is released unread, whatever comes in meanwhile. */
  lemma {:induction false} PendingReadsAll(l: Ledger, steps: seq<Step>, locked: bool)
    requires Sound(l, locked) && AllRead(l) && AllPending(l, steps, locked)
    ensures AllAttentive(l, steps, locked) && AllRead(Run(l, steps, locked))
    decreases |steps|
  {
    hide Ordered, Numbered, Overruns, AllRead, After, FirstSeen, AtRelease, Fifo.Valid;
    RunReadsAll(l, steps, locked);
    if |steps| != 0 {
      var n := |steps| - 1;
      PendingReadsAll(l, steps[..n], locked);
      if steps[n].Call? {
        RunMatches(l, steps[..n], locked);
        PendingIsSeen(Run(l, steps[..n], locked).fifo, steps[n].bus, locked);
      }
    }
  }

  predicate Survives(e: Entry) { e.fate == Stored || e.fate == Delivered }

  /** The arrivals that were not lost, in order. */
  function Surviving(arrived: seq<Entry>): seq<Mailbox> {
    if arrived == [] then [] else
      var e := arrived[|arrived| - 1];
      Surviving(arrived[..|arrived| - 1]) + if Survives(e) then [e.m] else []
  }

  function Named(arrived: seq<Entry>, s: seq<nat>): seq<Mailbox>
    requires Below(s, |arrived|)
  {
    seq(|s|, i requires 0 <= i < |s| => arrived[s[i]].m)
  }

  lemma NothingBelow(s: seq<nat>)
    ensures s == [] || !Below(s, 0)
  {
    if s != [] {
      assert !(s[0] < 0);
    }
  }

  /** An increasing list that contains the largest number ends with it. */
  lemma EndsWith(s: seq<nat>, n: nat)
    requires Increasing(s) && Below(s, n + 1) && n in s
    ensures s != [] && s == s[..|s| - 1] + [n] && Increasing(s[..|s| - 1]) && Below(s[..|s| - 1], n)
  {
    var i :| 0 <= i < |s| && s[i] == n;
    var m := |s| - 1;
    assert forall j :: 0 <= j < m ==> s[j] < s[m];
    assert s[i] <= s[m];
  }

  /** The list has the numbers of exactly the arrivals that were not lost. */
  predicate Lists(arrived: seq<Entry>, s: seq<nat>) {
    forall k :: 0 <= k < |arrived| ==> (Survives(arrived[k]) <==> k in s)
  }

  lemma ListsFront(arrived: seq<Entry>, rest: seq<nat>, last: seq<nat>)
    requires arrived != [] && Lists(arrived, rest + last)
    requires Below(rest, |arrived| - 1) && (last == [] || last == [|arrived| - 1])
    ensures Lists(arrived[..|arrived| - 1], rest)
    ensures Survives(arrived[|arrived| - 1]) <==> last != []
  {
    var n := |arrived| - 1;
    forall k | 0 <= k < n
      ensures Survives(arrived[..n][k]) <==> k in rest
    {
      assert k in rest + last <==> k in rest;
    }
    assert n in rest + last <==> last != [];
  }

  lemma NamedFront(arrived: seq<Entry>, rest: seq<nat>, last: seq<nat>)
    requires arrived != [] && Below(rest, |arrived| - 1) && (last == [] || last == [|arrived| - 1])
    ensures Below(rest + last, |arrived|)
    ensures Named(arrived, rest + last) ==
      Named(arrived[..|arrived| - 1], rest) + if last == [] then [] else [arrived[|arrived| - 1].m]
  {
  }

  lemma {:induction false} NamedSurvive(arrived: seq<Entry>, s: seq<nat>)
    requires Increasing(s) && Below(s, |arrived|) && Lists(arrived, s)
    ensures Named(arrived, s) == Surviving(arrived)
    decreases |arrived|
  {
    hide Increasing, Lists, Survives, Named;
    if arrived == [] {
      NothingBelow(s);
      NothingNamed(arrived);
    } else {
      var n := |arrived| - 1;
      if n in s {
        EndsWith(s, n);
        var rest := s[..|s| - 1];
        ListsFront(arrived, rest, [n]);
        NamedFront(arrived, rest, [n]);
        NamedSurvive(arrived[..n], rest);
      } else {
        assert Below(s, n) && s + [] == s;
        ListsFront(arrived, s, []);
        NamedFront(arrived, s, []);
        NamedSurvive(arrived[..n], s);
      }
    }
  }

  lemma NothingNamed(arrived: seq<Entry>)
    ensures Named(arrived, []) == []
  {
  }

  lemma SoundInOrder(r: Ledger, locked: bool)
    requires Sound(r, locked)
    ensures Below(r.delivered, |r.arrived|) && Named(r.arrived, r.delivered) + r.fifo.queue == Surviving(r.arrived)
  {
    hide Fifo.Valid, Overruns;
    BothBelow(r);
    var s := r.delivered + r.stored;
    forall k | 0 <= k < |r.arrived|
      ensures Survives(r.arrived[k]) <==> k in s
    {
    }
    NamedSurvive(r.arrived, s);
    hide Ordered, Numbered;
    assert Named(r.arrived, s) == Named(r.arrived, r.delivered) + Named(r.arrived, r.stored);
    assert Named(r.arrived, r.stored) == r.fifo.queue;
  }

  /**
   In every run, what was delivered, followed by what is stored, is what came in, in that order and once
   each, without the messages lost to an overrun and those released unread.
   */
  lemma DeliveredInOrder(l: Ledger, steps: seq<Step>, locked: bool)
    requires Sound(l, locked)
    ensures var r := Run(l, steps, locked);
      Below(r.delivered, |r.arrived|) && Named(r.arrived, r.delivered) + r.fifo.queue == Surviving(r.arrived)
  {
    SoundInOrder(Run(l, steps, locked), locked);
    hide Run, Sound, Below, Named;
  }

  /** How many arrivals met that fate. */
  function CountOf(arrived: seq<Entry>, fate: Fate): nat {
    if arrived == [] then 0 else CountOf(arrived[..|arrived| - 1], fate) + if arrived[|arrived| - 1].fate == fate then 1 else 0
  }

  lemma {:induction false} FatesAddUp(arrived: seq<Entry>)
    ensures |Surviving(arrived)| + CountOf(arrived, Overrun) + CountOf(arrived, Unread) == |arrived|
    decreases |arrived|
  {
    if arrived != [] {
      FatesAddUp(arrived[..|arrived| - 1]);
    }
  }

  /** In every run, each message that came in was delivered, is stored, was lost to an overrun or was released unread. */
  lemma NothingUncounted(l: Ledger, steps: seq<Step>, locked: bool)
    requires Sound(l, locked)
    ensures var r := Run(l, steps, locked);
      |r.delivered| + |r.fifo.queue| + CountOf(r.arrived, Overrun) + CountOf(r.arrived, Unread) == |l.arrived| + |AllIncoming(steps)|
  {
    hide Run, Sound;
    var r := Run(l, steps, locked);
    DeliveredInOrder(l, steps, locked);
    FatesAddUp(r.arrived);
    RunRecords(l, steps, locked);
    assert |Named(r.arrived, r.delivered) + r.fifo.queue| == |r.delivered| + |r.fifo.queue|;
    assert |Messages(r.arrived)| == |r.arrived| && |Messages(l.arrived)| == |l.arrived|;
  }

  // ---------- a message released unread ----------

  /** One message, just before the sixth access of a call. */
  function Late(m: Mailbox): nat -> seq<Mailbox> { (k: nat) => if k == 5 then [m] else [] }

  /** Registers that show the same at every access. */
  function Showing(s: Mailbox): nat -> Mailbox { (k: nat) => s }

  lemma {:induction false} LateArrivals(m: Mailbox, n: nat)
    ensures Arrivals(Late(m), n) == if n <= 5 then [] else [m]
  {
    if n > 0 {
      LateArrivals(m, n - 1);
    }
  }

  const EMPTY: Ledger := Ledger(Fifo([], 0), [], [], [])

  lemma EmptyIsSound(locked: bool)
    ensures Sound(EMPTY, locked)
  {
  }

  lemma OneArrives(m: Mailbox, locked: bool)
    ensures EMPTY.Matches() && AllCame(EMPTY, [], locked) == EMPTY
    ensures AllCame(EMPTY, [m], locked) == Ledger(Fifo([m], 0), [Entry(m, false, Stored)], [0], [])
  {
    assert EMPTY.Matches();
    assert AllCame(EMPTY, [m][..0], locked) == EMPTY;
    assert AllCame(EMPTY, [m], locked) == Came(EMPTY, m, locked);
  }

  /** The FIFO is empty at the first read and a message comes in before the data is read: the call releases it unread. */
  lemma LateMessageIsLost(m: Mailbox, locked: bool)
    ensures EMPTY.Matches()
    ensures var r := Called(EMPTY, Late(m), locked);
      r.fifo.queue == [] && r.arrived == [Entry(m, false, Unread)] && r.delivered == []
  {
    hide Arrivals, AllCame, ArriveAll, Arrive, Fifo.Valid;
    OneArrives(m, locked);
    LateArrivals(m, 14);
    LateArrivals(m, 15);
    assert FirstSeen(EMPTY.fifo, Late(m), locked) == [] by { NothingFirst(m, locked); }
    WritePops(Fifo([m], 0), Fifo([m], 0).Rfr());
    hide WriteRfr, Fifo.Rfr, FirstSeen;
  }

  lemma NothingFirst(m: Mailbox, locked: bool)
    ensures EMPTY.fifo.Valid() && FirstSeen(EMPTY.fifo, Late(m), locked) == []
  {
  }

  /** And what it returns is that message's data under the identifier and length the registers showed before. */
  lemma LateMessageIsMixed(m: Mailbox, s: Mailbox, locked: bool, prior: RxMessage)
    ensures EMPTY.fifo.Valid()
    ensures Assembled(EMPTY.fifo, Late(m), Showing(s), locked, prior) == Unpacked(s.(dlr := m.dlr, dhr := m.dhr), prior)
  {
    NothingFirst(m, locked);
    hide Arrivals, IsExtended, IsRemote, Length, Byte, Masked, StandardId, ExtendedId, ArriveAll, Fifo.Valid;
    forall k: nat
      ensures SeenAt(EMPTY.fifo, Late(m), Showing(s), locked, k) == if k < 5 then s else m
    {
      LateArrivals(m, k + 1);
      OneStored(m, locked);
    }
    hide SeenAt;
  }

  lemma OneStored(m: Mailbox, locked: bool)
    ensures EMPTY.fifo.Valid() && ArriveAll(EMPTY.fifo, [], locked).queue == [] && ArriveAll(EMPTY.fifo, [m], locked).queue == [m]
  {
    OneArrives(m, locked);
  }

  // ---------- the driver ----------

  function Word4(m: Mailbox, high: bool): Word { if high then m.dhr else m.dlr }

  lemma MatchesValid(l: Ledger)
    requires l.Matches()
    ensures l.fifo.Valid()
  {
  }

  /** The call recorded one more message as delivered, the one it found at its first read, and returned it; or it found none. */
  predicate Handed(before: Ledger, first: seq<Mailbox>, after: Ledger, message: RxMessage, prior: RxMessage) {
    var n := |before.delivered|;
    if first == [] then after.delivered == before.delivered else (
      && |after.delivered| == n + 1 && after.delivered[..n] == before.delivered
      && after.delivered[n] < |after.arrived| && after.arrived[after.delivered[n]].m == first[0]
      && message == Unpacked(first[0], prior))
  }

  lemma CalledHands(l: Ledger, bus: nat -> seq<Mailbox>, stale: nat -> Mailbox, locked: bool, prior: RxMessage)
    requires Sound(l, locked)
    ensures Handed(l, FirstSeen(l.fifo, bus, locked), Called(l, bus, locked), Assembled(l.fifo, bus, stale, locked, prior), prior)
  {
    assert l.Matches() && l.fifo.Valid();
    hide Sound, Arrivals, AllCame, ArriveAll, Fifo.Valid, Ledger.Matches, Fifo.Rfr, FirstSeen, Assembled, Unpacked, Released, Handed;
    var first := FirstSeen(l.fifo, bus, locked);
    var last := AllCame(l, Arrivals(bus, 15), locked);
    var rfr := AllCame(l, Arrivals(bus, 14), locked).fifo.Rfr();
    DeliveredStay(l, Arrivals(bus, 15), locked);
    if first != [] {
      SeenIsReleased(l.fifo, bus, locked);
      SeenIsReturned(l.fifo, bus, stale, locked, prior);
    }
    ReleasedHands(l, last, rfr, first, Assembled(l.fifo, bus, stale, locked, prior), prior);
  }

  lemma ReleasedHands(before: Ledger, last: Ledger, rfr: Word, first: seq<Mailbox>, message: RxMessage, prior: RxMessage)
    requires last.Matches() && last.delivered == before.delivered
    requires first != [] ==> last.fifo.queue != [] && last.fifo.queue[0] == first[0] && message == Unpacked(first[0], prior)
    ensures Handed(before, first, Released(last, rfr, first != []), message, prior)
  {
    hide WriteRfr, Fifo.Valid, Unpacked;
  }

  lemma {:induction false} DeliveredStay(l: Ledger, ms: seq<Mailbox>, locked: bool)
    requires l.Matches()
    ensures AllCame(l, ms, locked).delivered == l.delivered
    decreases |ms|
  {
    hide Ledger.Matches, Arrive;
    if ms != [] {
      DeliveredStay(l, ms[..|ms| - 1], locked);
      RoomLeft(AllCame(l, ms[..|ms| - 1], locked));
    }
  }

  lemma NothingYet(l: Ledger, bus: nat -> seq<Mailbox>, locked: bool)
    requires l.Matches()
    ensures AllCame(l, Arrivals(bus, 0), locked) == l
  {
  }

  lemma {:induction false} AllCameConcat(l: Ledger, ms: seq<Mailbox>, ns: seq<Mailbox>, locked: bool)
    requires l.Matches()
    ensures AllCame(l, ms + ns, locked) == AllCame(AllCame(l, ms, locked), ns, locked)
    decreases |ns|
  {
    hide Ledger.Matches, Came;
    if ns == [] {
      assert ms + ns == ms;
    } else {
      AllCameConcat(l, ms, ns[..|ns| - 1], locked);
      assert (ms + ns)[..|ms + ns| - 1] == ms + ns[..|ns| - 1];
    }
  }

  /**
   One receive FIFO of a CAN cell with its release register; a cell has two of them. The ledger beside it
   records every arrival and what has become of it.
   */
  class ReceiveFifo {
    var fifo: Fifo
    const locked: bool
    ghost var ledger: Ledger

    ghost predicate Valid()
      reads this
    {
      ledger.fifo == fifo && Sound(ledger, locked)
    }

    /** Reset: nothing stored, nothing recorded. */
    constructor (locked: bool)
      ensures Valid() && ledger == EMPTY && this.locked == locked
    {
      this.locked := locked;
      fifo := Fifo([], 0);
      ledger := EMPTY;
      new;
      EmptyIsSound(locked);
    }

    /** The FIFO is what the first k register accesses of the bus schedule made of `start`. */
    ghost predicate OnlyArrivals(start: Ledger, bus: nat -> seq<Mailbox>, k: nat)
      reads this
    {
      start.Matches() && ledger == AllCame(start, Arrivals(bus, k), locked) && fifo == ledger.fifo
    }

    /** The bus delivers what is due before register access k. */
    method Bus(bus: nat -> seq<Mailbox>, k: nat, ghost start: Ledger)
      requires OnlyArrivals(start, bus, k)
      modifies this
      ensures OnlyArrivals(start, bus, k + 1)
    {
      hide ArriveAll, AllCame, Ledger.Matches;
      AllCameConcat(start, Arrivals(bus, k), bus(k), locked);
      assert fifo.Valid() by { MatchesValid(ledger); }
      fifo := ArriveAll(fifo, bus(k), locked);
      ledger := AllCame(ledger, bus(k), locked);
    }

    /** One read of a register of the output mailbox, at access k. */
    method ReadOutput(bus: nat -> seq<Mailbox>, stale: nat -> Mailbox, k: nat, ghost start: Ledger) returns (m: Mailbox)
      requires OnlyArrivals(start, bus, k)
      modifies this
      ensures OnlyArrivals(start, bus, k + 1)
      ensures start.fifo.Valid() && m == SeenAt(start.fifo, bus, stale, locked, k)
    {
      Bus(bus, k, start);
      hide ArriveAll, AllCame, Arrivals;
      m := if fifo.queue != [] then fifo.queue[0] else stale(k);
    }

    /** Identifier type, identifier and frame type: three reads of RIR. */
    method ReadIdentifier(prior: RxMessage, bus: nat -> seq<Mailbox>, stale: nat -> Mailbox, ghost start: Ledger) returns (message: RxMessage)
      requires OnlyArrivals(start, bus, 0)
      modifies this
      ensures OnlyArrivals(start, bus, 3) && start.fifo.Valid()
      ensures var a := Assembled(start.fifo, bus, stale, locked, prior);
        message == prior.(stdId := a.stdId, extId := a.extId, ide := a.ide, rtr := a.rtr)
    {
      hide OnlyArrivals, SeenAt, Masked, StandardId, ExtendedId, Length, Byte, TypeField, RemoteField, IsExtended, IsRemote;
      var m := ReadOutput(bus, stale, 0, start);
      IdentifierFields(m.ir);
      message := prior.(ide := TypeField(m.ir));
      m := ReadOutput(bus, stale, 1, start);
      if message.ide == ID_STANDARD {
        message := message.(stdId := Masked(StandardId(m.ir), 0x7FF));
      } else {
        message := message.(extId := Masked(ExtendedId(m.ir), 0x1FFF_FFFF));
      }
      m := ReadOutput(bus, stale, 2, start);
      IdentifierFields(m.ir);
      message := message.(rtr := RemoteField(m.ir));
    }

    /** Four data bytes of the low or the high data register, one register read each. */
    method ReadFour(high: bool, bus: nat -> seq<Mailbox>, stale: nat -> Mailbox, k: nat, ghost start: Ledger)
      returns (b0: bv8, b1: bv8, b2: bv8, b3: bv8)
      requires OnlyArrivals(start, bus, k)
      modifies this
      ensures OnlyArrivals(start, bus, k + 4) && start.fifo.Valid()
      ensures b0 == Byte(Word4(SeenAt(start.fifo, bus, stale, locked, k), high), 0)
      ensures b1 == Byte(Word4(SeenAt(start.fifo, bus, stale, locked, k + 1), high), 8)
      ensures b2 == Byte(Word4(SeenAt(start.fifo, bus, stale, locked, k + 2), high), 16)
      ensures b3 == Byte(Word4(SeenAt(start.fifo, bus, stale, locked, k + 3), high), 24)
    {
      hide OnlyArrivals, SeenAt, Byte;
      var m := ReadOutput(bus, stale, k, start);
      b0 := Byte(Word4(m, high), 0);
      m := ReadOutput(bus, stale, k + 1, start);
      b1 := Byte(Word4(m, high), 8);
      m := ReadOutput(bus, stale, k + 2, start);
      b2 := Byte(Word4(m, high), 16);
      m := ReadOutput(bus, stale, k + 3, start);
      b3 := Byte(Word4(m, high), 24);
    }

    /** The thirteen reads of the output mailbox. */
    method ReadMessage(prior: RxMessage, bus: nat -> seq<Mailbox>, stale: nat -> Mailbox, ghost start: Ledger) returns (message: RxMessage)
      requires OnlyArrivals(start, bus, 0)
      modifies this
      ensures OnlyArrivals(start, bus, 13) && start.fifo.Valid()
      ensures message == Assembled(start.fifo, bus, stale, locked, prior)
    {
      hide OnlyArrivals, Byte, Masked, StandardId, ExtendedId, IsExtended, IsRemote, Length, SeenAt, Fifo.Valid;
      message := ReadIdentifier(prior, bus, stale, start);
      var m := ReadOutput(bus, stale, 3, start);
      message := message.(dlc := Length(m.dtr));
      m := ReadOutput(bus, stale, 4, start);
      message := message.(fmi := Byte(m.dtr, 8));
      var b0, b1, b2, b3 := ReadFour(false, bus, stale, 5, start);
      var b4, b5, b6, b7 := ReadFour(true, bus, stale, 9, start);
      message := message.(data := [b0, b1, b2, b3, b4, b5, b6, b7]);
    }

    /**
     One call of the driver, whatever arrives between its fifteen register accesses and whatever the registers
     show while the FIFO is empty: the ledger moves by one call, and the message is put together from what
     each read finds. A message stored at the first read is what is returned and what is recorded as delivered.
     */
    method Receive(prior: RxMessage, bus: nat -> seq<Mailbox>, stale: nat -> Mailbox) returns (message: RxMessage)
      requires Valid()
      modifies this
      ensures Valid()
      ensures ledger == Called(old(ledger), bus, locked)
      ensures message == Assembled(old(fifo), bus, stale, locked, prior)
      ensures Handed(old(ledger), FirstSeen(old(fifo), bus, locked), ledger, message, prior)
    {
      assert ledger.Matches() && fifo.Valid();
      hide Sound, AllCame, Called, Assembled, FirstSeen, Handed, Ledger.Matches, Fifo.Valid;
      ghost var start := ledger;
      NothingYet(start, bus, locked);
      CalledSound(start, bus, locked);
      CalledHands(start, bus, stale, locked, prior);
      message := ReadMessage(prior, bus, stale, start);
      Release(bus, start);
    }

    /** `RFR |= RFOM`: a read and a write, the last two accesses of a call. */
    method Release(bus: nat -> seq<Mailbox>, ghost start: Ledger)
      requires OnlyArrivals(start, bus, 13)
      modifies this
      ensures start.Matches() && ledger == Called(start, bus, locked) && fifo == ledger.fifo
    {
      assert start.Matches();
      hide ArriveAll, AllCame, WriteRfr, FirstSeen, Ledger.Matches;
      Bus(bus, 13, start);
      var rfr := fifo.Rfr();
      Bus(bus, 14, start);
      ghost var read := FirstSeen(start.fifo, bus, locked) != [];
      ReleasedMatches(ledger, rfr, read);
      fifo := WriteRfr(fifo, rfr | RFOM);
      ledger := Released(ledger, rfr, read);
    }

    /** The number of messages stored; it is zero exactly when there is none. */
    method MessagePending() returns (n: Word)
      requires Valid()
      ensures n as nat == |fifo.queue|
    {
      CountRead(fifo);
      hide Fifo.Rfr, Count;
      n := fifo.Rfr() & 0x03;
    }
  }
}
