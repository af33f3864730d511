/**
 The conversion sequencers of the ADC: sixteen regular ranks and a length packed into SQR1
 to SQR3, eighteen sample times in SMPR1 and SMPR2, and up to four injected ranks, right
 aligned, with their length in JSQR (RM0008, sections 11.12.4 to 11.12.12).
 */
module Adc {
  import opened Bits

  // ---------- packed fields ----------

  function Field5(w: Word, q: Word): Word
    requires q < 6
  {
    (w >> 5 * q) & 0x1F
  }

  /** `(w & ~(0x1F << 5q)) | (v << 5q)`; q = 6 puts the low bits of v at the top of the word. */
  function WithField5(w: Word, q: Word, v: Word): Word
    requires q <= 6
  {
    (w & !(0x1F << 5 * q)) | (v << 5 * q)
  }

  function Field3(w: Word, q: Word): Word
    requires q < 10
  {
    (w >> 3 * q) & 7
  }

  function WithField3(w: Word, q: Word, v: Word): Word
    requires q < 10
  {
    (w & !(7 << 3 * q)) | (v << 3 * q)
  }

  lemma Field5At(w: Word, q: Word, v: Word, j: Word)
    requires q < 6 && j < 6 && v <= 0x1F
    ensures Field5(WithField5(w, q, v), j) == if j == q then v else Field5(w, j)
  {
  }

  lemma Field3At(w: Word, q: Word, v: Word, j: Word)
    requires q < 10 && j < 10 && v <= 7
    ensures Field3(WithField3(w, q, v), j) == if j == q then v else Field3(w, j)
  {
  }

  /** L of SQR1, the regular length less one. */
  function L(sqr1: Word): Word { (sqr1 >> 20) & 0xF }

  function WithL(sqr1: Word, l: Word): Word { (sqr1 & 0xFF0F_FFFF) | (l << 20) }

  lemma LAt(sqr1: Word, l: Word, j: Word)
    requires l <= 0xF && j < 4
    ensures L(WithL(sqr1, l)) == l && Field5(WithL(sqr1, l), j) == Field5(sqr1, j)
  {
  }

  lemma RanksLeaveL(sqr1: Word, q: Word, v: Word)
    requires q < 4 && v <= 0x1F
    ensures L(WithField5(sqr1, q, v)) == L(sqr1)
  {
  }

  /** JL of JSQR, the injected length less one. */
  function JL(jsqr: Word): Word { (jsqr >> 20) & 3 }

  function WithJL(jsqr: Word, l: Word): Word { (jsqr & 0xFFCF_FFFF) | (l << 20) }

  lemma JLAt(jsqr: Word, l: Word, j: Word)
    requires l <= 3 && j < 4
    ensures JL(WithJL(jsqr, l)) == l && Field5(WithJL(jsqr, l), j) == Field5(jsqr, j)
  {
  }

  /** Writing injected field q changes JL exactly when q is 4, the field that overlaps it. */
  lemma InjectedFieldAndJL(jsqr: Word, q: Word, v: Word)
    requires q <= 6 && v <= 0x1F
    ensures JL(WithField5(jsqr, q, v)) == if q == 4 then v & 3 else JL(jsqr)
  {
  }

  lemma InjectedFieldAt(jsqr: Word, q: Word, v: Word, j: Word)
    requires q <= 6 && j < 4 && v <= 0x1F
    ensures Field5(WithField5(jsqr, q, v), j) == if j == q then v else Field5(jsqr, j)
  {
  }

  // ---------- what the registers mean ----------

  datatype Registers = Registers(cr1: Word, cr2: Word, smpr1: Word, smpr2: Word, sqr1: Word, sqr2: Word, sqr3: Word, jsqr: Word)

  /** The channel converted at a regular rank. */
  function RankOf(r: Registers, rank: Word): Word
    requires 1 <= rank <= 16
  {
    if rank < 7 then Field5(r.sqr3, rank - 1) else if rank < 13 then Field5(r.sqr2, rank - 7) else Field5(r.sqr1, rank - 13)
  }

  function TimeOf(r: Registers, channel: Word): Word
    requires channel < 18
  {
    if channel > 9 then Field3(r.smpr1, channel - 10) else Field3(r.smpr2, channel)
  }

  /** JSQ1 to JSQ4. */
  function AllInjected(jsqr: Word): (s: seq<Word>)
    ensures |s| == 4
  {
    [Field5(jsqr, 0), Field5(jsqr, 1), Field5(jsqr, 2), Field5(jsqr, 3)]
  }

  /** The channels the hardware converts as injected sequence: it starts at JSQ(4-JL) and ends at JSQ4. */
  function Injected(jsqr: Word): (s: seq<Word>)
    ensures |s| == JL(jsqr) as nat + 1
  {
    JLBound(jsqr);
    AllInjected(jsqr)[3 - JL(jsqr) as nat..]
  }

  lemma JLBound(jsqr: Word)
    ensures JL(jsqr) <= 3 && JL(jsqr) as nat <= 3
  {
  }

  // ---------- calls and what they promise ----------

  datatype Call =
    | Init(length: Word)
    | Regular(channel: Word, rank: Word, time: Word)
    | InjectedChannel(channel: Word, rank: Word, time: Word)
    | InjectedLength(length: Word)
  {
    predicate Valid() {
      match this
      case Init(n) => 1 <= n <= 16
      case Regular(c, k, t) => c < 18 && 1 <= k <= 16 && t <= 7
      case InjectedChannel(c, k, t) => c < 18 && 1 <= k <= 4 && t <= 7
      case InjectedLength(n) => 1 <= n <= 4
    }

    /** A length as the hardware stores it. */
    function Less1(): Word requires Init? || InjectedLength? { length - 1 }

    predicate SetsTime(ch: Word) { (Regular? || InjectedChannel?) && channel == ch }
  }

  /** The plain arrays after a call: one rank, one sample time, one length or one injected position changes, nothing else. */
  ghost predicate Stepped(r: Registers, c: Call, r': Registers) {
    && (forall k: Word :: 1 <= k <= 16 ==> RankOf(r', k) == if c.Regular? && c.rank == k then c.channel else RankOf(r, k))
    && (forall ch: Word :: ch < 18 ==> TimeOf(r', ch) == if c.SetsTime(ch) then c.time else TimeOf(r, ch))
    && L(r'.sqr1) == (if c.Init? then c.Less1() else L(r.sqr1))
    && (c.Init? || c.Regular? ==> r'.jsqr == r.jsqr)
    && (c.InjectedChannel? ==> r'.jsqr == ChannelJsqr(r.jsqr, c.channel, c.rank))
    && (c.InjectedLength? ==> r'.jsqr == WithJL(r.jsqr, c.Less1()))
  }

  /** The field `ADC_InjectedChannelConfig` writes for a rank: (Rank + 3) - (JL + 1). */
  function InjectedIndex(jsqr: Word, rank: Word): Word { (rank + 3) - (JL(jsqr) + 1) }

  lemma InjectedIndexBound(jsqr: Word, rank: Word)
    requires 1 <= rank <= 4
    ensures InjectedIndex(jsqr, rank) <= 6
    ensures rank <= JL(jsqr) + 1 ==> InjectedIndex(jsqr, rank) < 4
    ensures InjectedIndex(jsqr, rank) == 4 <==> rank == JL(jsqr) + 2
  {
  }

  function ChannelJsqr(jsqr: Word, channel: Word, rank: Word): Word {
    if 1 <= rank <= 4 then
      InjectedIndexBound(jsqr, rank);
      WithField5(jsqr, InjectedIndex(jsqr, rank), channel)
    else jsqr
  }

  // ---------- the injected sequence ----------

  /** A call for a rank within the length replaces that position of the converted sequence, and nothing else. */
  lemma InRangeUpdates(jsqr: Word, channel: Word, rank: Word)
    requires channel < 18 && 1 <= rank <= JL(jsqr) + 1
    ensures 1 <= rank as nat <= |Injected(jsqr)|
    ensures Injected(ChannelJsqr(jsqr, channel, rank)) == Injected(jsqr)[rank as nat - 1 := channel]
  {
    var q := InjectedIndex(jsqr, rank);
    InjectedIndexBound(jsqr, rank);
    InRangePositions(JL(jsqr), rank, q);
    InjectedFieldAndJL(jsqr, q, channel);
    FieldReplaced(jsqr, q, channel);
    JLBound(jsqr);
    TailUpdate(AllInjected(jsqr), JL(jsqr) as nat, q as nat, rank as nat, channel);
    hide AllInjected, WithField5, JL, InjectedIndex;
  }

  lemma FieldReplaced(jsqr: Word, q: Word, v: Word)
    requires q < 4 && v <= 0x1F
    ensures AllInjected(WithField5(jsqr, q, v)) == AllInjected(jsqr)[q as nat := v]
  {
    hide Field5, WithField5;
    InjectedFieldAt(jsqr, q, v, 0);
    InjectedFieldAt(jsqr, q, v, 1);
    InjectedFieldAt(jsqr, q, v, 2);
    InjectedFieldAt(jsqr, q, v, 3);
  }

  /** Updating a four-element list and looking at its right end. */
  lemma TailUpdate(f: seq<Word>, l: nat, q: nat, rank: nat, v: Word)
    requires |f| == 4 && l <= 3 && q <= 3 && 1 <= rank <= l + 1 && q + l == rank + 2
    ensures f[q := v][3 - l..] == f[3 - l..][rank - 1 := v]
  {
  }

  /** Where the driver's field number lands in the right-aligned sequence. */
  lemma InRangePositions(l: Word, rank: Word, q: Word)
    requires l <= 3 && 1 <= rank <= l + 1 && q == (rank + 3) - (l + 1)
    ensures q <= 3 && q as nat <= 3 && rank as nat <= l as nat + 1 && 1 <= rank as nat && q as nat + l as nat == rank as nat + 2
  {
  }

  /** For any rank the driver accepts, the length survives unless the rank is just past it and the channel's low bits differ from it. */
  lemma LengthSurvives(jsqr: Word, channel: Word, rank: Word)
    requires channel < 18 && 1 <= rank <= 4
    ensures JL(ChannelJsqr(jsqr, channel, rank)) == JL(jsqr) <==> rank != JL(jsqr) + 2 || channel & 3 == JL(jsqr)
  {
    InjectedIndexBound(jsqr, rank);
    InjectedFieldAndJL(jsqr, InjectedIndex(jsqr, rank), channel);
    hide WithField5, InjectedIndex;
  }

  /** A rank past the length leaves all four channels alone; just past it, the channel's low bits become the length. */
  lemma PastLength(jsqr: Word, channel: Word, rank: Word)
    requires channel < 18 && JL(jsqr) + 1 < rank <= 4
    ensures AllInjected(ChannelJsqr(jsqr, channel, rank)) == AllInjected(jsqr)
    ensures JL(ChannelJsqr(jsqr, channel, rank)) == if rank == JL(jsqr) + 2 then channel & 3 else JL(jsqr)
  {
    var q := InjectedIndex(jsqr, rank);
    InjectedIndexBound(jsqr, rank);
    PastPositions(JL(jsqr), rank, q);
    hide AllInjected, WithField5, JL, InjectedIndex;
    InjectedFieldAndJL(jsqr, q, channel);
    FieldsKept(jsqr, q, channel);
  }

  lemma FieldsKept(jsqr: Word, q: Word, v: Word)
    requires 4 <= q <= 6 && v <= 0x1F
    ensures AllInjected(WithField5(jsqr, q, v)) == AllInjected(jsqr)
  {
    hide Field5, WithField5;
    InjectedFieldAt(jsqr, q, v, 0);
    InjectedFieldAt(jsqr, q, v, 1);
    InjectedFieldAt(jsqr, q, v, 2);
    InjectedFieldAt(jsqr, q, v, 3);
  }

  lemma PastPositions(l: Word, rank: Word, q: Word)
    requires l <= 3 && l + 1 < rank <= 4 && q == (rank + 3) - (l + 1)
    ensures 4 <= q <= 6 && 1 <= rank && (q == 4 <==> rank == l + 2)
  {
  }

  /** With one injected conversion configured, setting rank 2 to channel 3 makes the length four. */
  lemma RankPastLengthOverwritesIt()
    ensures JL(0) + 1 == 1 && JL(ChannelJsqr(0, 3, 2)) + 1 == 4
  {
  }

  /** Changing the length keeps the right end of the sequence: the last ranks stay last. */
  lemma LengthKeepsRightEnd(jsqr: Word, n: Word)
    requires 1 <= n <= 4
    ensures Injected(WithJL(jsqr, n - 1)) == AllInjected(jsqr)[4 - n as nat..]
  {
    JLAt(jsqr, n - 1, 0);
    JLAt(jsqr, n - 1, 1);
    JLAt(jsqr, n - 1, 2);
    JLAt(jsqr, n - 1, 3);
    hide Field5, WithJL, JL;
  }

  /** A call of `ADC_InjectedChannelConfig`, as far as the sequence goes. */
  datatype Placement = Placement(rank: nat, channel: Word)

  predicate InRange(calls: seq<Placement>, n: nat) {
    n <= 4 && forall i :: 0 <= i < |calls| ==> 1 <= calls[i].rank <= n && calls[i].channel < 18
  }

  function RankWord(rank: nat): Word {
    if rank == 1 then 1 else if rank == 2 then 2 else if rank == 3 then 3 else 4
  }

  function Place(jsqr: Word, c: Placement): Word { ChannelJsqr(jsqr, c.channel, RankWord(c.rank)) }

  lemma PlaceUpdates(jsqr: Word, c: Placement)
    requires 1 <= c.rank <= |Injected(jsqr)| && c.channel < 18
    ensures Injected(Place(jsqr, c)) == Injected(jsqr)[c.rank - 1 := c.channel]
  {
    RankFits(JL(jsqr), c.rank);
    JLBound(jsqr);
    hide Injected, JL, ChannelJsqr;
    InRangeUpdates(jsqr, c.channel, RankWord(c.rank));
  }

  lemma RankFits(l: Word, rank: nat)
    requires l <= 3 && 1 <= rank <= l as nat + 1
    ensures 1 <= RankWord(rank) <= l + 1 && RankWord(rank) as nat == rank
  {
  }

  function RunPlacements(jsqr: Word, calls: seq<Placement>): Word
    decreases |calls|
  {
    if calls == [] then jsqr else Place(RunPlacements(jsqr, calls[..|calls| - 1]), calls[|calls| - 1])
  }

  /** What the calls put at position p, or `before` if none of them is for it. */
  function LastPlaced(calls: seq<Placement>, p: nat, before: Word): Word
    decreases |calls|
  {
    if calls == [] then before
    else if calls[|calls| - 1].rank == p + 1 then calls[|calls| - 1].channel
    else LastPlaced(calls[..|calls| - 1], p, before)
  }

  /** Over any run of calls within the length, in any order, the converted sequence is a plain array the calls update. */
  lemma {:induction false} PlacementsUpdateArray(jsqr: Word, calls: seq<Placement>)
    requires InRange(calls, |Injected(jsqr)|)
    ensures |Injected(RunPlacements(jsqr, calls))| == |Injected(jsqr)|
    ensures forall p :: 0 <= p < |Injected(jsqr)| ==>
      Injected(RunPlacements(jsqr, calls))[p] == LastPlaced(calls, p, Injected(jsqr)[p])
    decreases |calls|
  {
    hide Injected, Place;
    if calls != [] {
      PlacementsUpdateArray(jsqr, calls[..|calls| - 1]);
      PlaceUpdates(RunPlacements(jsqr, calls[..|calls| - 1]), calls[|calls| - 1]);
    }
  }

  /** Length first, then the channels in any order: position p converts the last channel placed there. */
  lemma SequenceAsPlaced(jsqr: Word, n: Word, calls: seq<Placement>)
    requires 1 <= n <= 4 && InRange(calls, n as nat)
    ensures var s := Injected(RunPlacements(WithJL(jsqr, n - 1), calls));
      && |s| == n as nat
      && forall p :: 0 <= p < |s| ==> s[p] == LastPlaced(calls, p, AllInjected(jsqr)[4 - |s| + p])
  {
    LengthKeepsRightEnd(jsqr, n);
    hide WithJL, AllInjected, Injected, JL;
    PlacementsUpdateArray(WithJL(jsqr, n - 1), calls);
  }

  /** Ranks 1 to n in turn. */
  function InTurn(channels: seq<Word>): seq<Placement> {
    seq(|channels|, i requires 0 <= i < |channels| => Placement(i + 1, channels[i]))
  }

  lemma {:induction false} LastOfTurn(calls: seq<Placement>, p: nat, before: Word)
    requires p < |calls| && forall i :: 0 <= i < |calls| ==> calls[i].rank == i + 1
    ensures LastPlaced(calls, p, before) == calls[p].channel
    decreases |calls|
  {
    if p < |calls| - 1 {
      LastOfTurn(calls[..|calls| - 1], p, before);
    }
  }

  /** The sequence the hardware converts is exactly the configured list. */
  lemma ConvertsTheList(jsqr: Word, n: Word, channels: seq<Word>)
    requires 1 <= n <= 4 && |channels| == n as nat && forall i :: 0 <= i < |channels| ==> channels[i] < 18
    ensures Injected(RunPlacements(WithJL(jsqr, n - 1), InTurn(channels))) == channels
  {
    hide Injected, LastPlaced, AllInjected, WithJL, RunPlacements, InTurn;
    var calls := InTurn(channels);
    InTurnRanks(channels, n);
    SequenceAsPlaced(jsqr, n, calls);
    var s := Injected(RunPlacements(WithJL(jsqr, n - 1), calls));
    forall p | 0 <= p < |s|
      ensures s[p] == channels[p]
    {
      LastOfTurn(calls, p, AllInjected(jsqr)[4 - |s| + p]);
    }
  }

  lemma InTurnRanks(channels: seq<Word>, n: Word)
    requires 1 <= n <= 4 && |channels| == n as nat && forall i :: 0 <= i < |channels| ==> channels[i] < 18
    ensures var calls := InTurn(channels);
      && |calls| == |channels| && InRange(calls, n as nat)
      && forall i :: 0 <= i < |calls| ==> calls[i].rank == i + 1 && calls[i].channel == channels[i]
  {
  }

  // ---------- every run of calls ----------

  ghost predicate Run(states: seq<Registers>, calls: seq<Call>) {
    |states| == |calls| + 1 && forall i :: 0 <= i < |calls| ==> Stepped(states[i], calls[i], states[i + 1])
  }

  /** In every run, a regular rank converts the channel last configured for it. */
  lemma {:induction false} LastRankWins(states: seq<Registers>, calls: seq<Call>, i: nat)
    requires Run(states, calls) && i < |calls| && calls[i].Regular? && 1 <= calls[i].rank <= 16
    requires forall j :: i < j < |calls| && calls[j].Regular? ==> calls[j].rank != calls[i].rank
    ensures RankOf(states[|calls|], calls[i].rank) == calls[i].channel
    decreases |calls|
  {
    hide Field5, Field3, L, RankOf;
    var n := |calls| - 1;
    assert Stepped(states[n], calls[n], states[n + 1]);
    if i < n {
      LastRankWins(states[..n + 1], calls[..n], i);
    }
  }

  /** In every run, a channel is sampled for the time last given with it, by a regular or an injected call. */
  lemma {:induction false} LastTimeWins(states: seq<Registers>, calls: seq<Call>, i: nat)
    requires Run(states, calls) && i < |calls| && (calls[i].Regular? || calls[i].InjectedChannel?) && calls[i].channel < 18
    requires forall j :: i < j < |calls| ==> !calls[j].SetsTime(calls[i].channel)
    ensures TimeOf(states[|calls|], calls[i].channel) == calls[i].time
    decreases |calls|
  {
    hide Field5, Field3, L, TimeOf;
    var n := |calls| - 1;
    assert Stepped(states[n], calls[n], states[n + 1]);
    if i < n {
      LastTimeWins(states[..n + 1], calls[..n], i);
    }
  }

  lemma StepLength(r: Registers, c: Call, r': Registers)
    requires Stepped(r, c, r')
    ensures L(r'.sqr1) == if c.Init? then c.Less1() else L(r.sqr1)
  {
  }

  /** In every run, the regular length is the one last initialised, whatever ranks 13 to 16 put beside it in SQR1. */
  lemma {:induction false} LastLengthWins(states: seq<Registers>, calls: seq<Call>, i: nat)
    requires Run(states, calls) && i < |calls| && calls[i].Init?
    requires forall j :: i < j < |calls| ==> !calls[j].Init?
    ensures L(states[|calls|].sqr1) == calls[i].Less1()
    decreases |calls|
  {
    hide L, Stepped, Call.Less1;
    var n := |calls| - 1;
    StepLength(states[n], calls[n], states[n + 1]);
    if i < n {
      LastLengthWins(states[..n + 1], calls[..n], i);
    }
  }

  /** The channel the calls after call i last placed at position p of the injected sequence, or `before`. */
  function LastInjected(calls: seq<Call>, i: nat, p: nat, before: Word): Word
    decreases |calls|
  {
    if |calls| <= i + 1 then before
    else
      var c := calls[|calls| - 1];
      if c.InjectedChannel? && c.rank as nat == p + 1 then c.channel else LastInjected(calls[..|calls| - 1], i, p, before)
  }

  predicate IsLength(n: Word) { 1 <= n <= 4 }

  predicate WithinLength(c: Call, n: Word) {
    c.InjectedChannel? ==> c.channel < 18 && 1 <= c.rank <= n
  }

  /** No call after call i sets another injected length, or a rank outside the one call i sets. */
  predicate InRangeAfter(calls: seq<Call>, i: nat)
    requires i < |calls| && calls[i].InjectedLength?
  {
    forall k :: i < k < |calls| ==> !calls[k].InjectedLength? && WithinLength(calls[k], calls[i].length)
  }

  lemma StepInjected(r: Registers, c: Call, r': Registers, n: Word)
    requires Stepped(r, c, r') && !c.InjectedLength? && IsLength(n) && WithinLength(c, n)
    requires |Injected(r.jsqr)| == n as nat
    ensures c.InjectedChannel? ==> 1 <= c.rank as nat <= |Injected(r.jsqr)|
    ensures Injected(r'.jsqr) == if c.InjectedChannel? then Injected(r.jsqr)[c.rank as nat - 1 := c.channel] else Injected(r.jsqr)
  {
    if c.InjectedChannel? {
      RankInLength(r.jsqr, c.rank, n);
      InRangeUpdates(r.jsqr, c.channel, c.rank);
    }
    hide Injected, ChannelJsqr, RankOf, TimeOf, L;
  }

  lemma LengthIsSmall(n: Word)
    requires IsLength(n)
    ensures n as nat <= 4
  {
  }

  lemma StepJsqr(r: Registers, c: Call, r': Registers)
    requires Stepped(r, c, r')
    ensures c.InjectedLength? ==> r'.jsqr == WithJL(r.jsqr, c.length - 1)
  {
    hide RankOf, TimeOf, L, WithJL;
  }

  lemma StepLengthens(r: Registers, c: Call, r': Registers)
    requires Stepped(r, c, r') && c.InjectedLength? && IsLength(c.length)
    ensures c.length as nat <= 4 && Injected(r'.jsqr) == AllInjected(r.jsqr)[4 - c.length as nat..]
  {
    hide Injected, AllInjected, WithJL, Stepped;
    StepJsqr(r, c, r');
    LengthIsSmall(c.length);
    LengthKeepsRightEnd(r.jsqr, c.length);
  }

  lemma RankInLength(jsqr: Word, rank: Word, length: Word)
    requires IsLength(length) && |Injected(jsqr)| == length as nat && 1 <= rank <= length
    ensures rank <= JL(jsqr) + 1 && 1 <= rank as nat <= length as nat
  {
    JLBound(jsqr);
  }

  /** Each position holds the channel last placed there since call i, or what `base` has. */
  predicate Placed(s: seq<Word>, calls: seq<Call>, i: nat, base: seq<Word>) {
    |s| == |base| && forall p :: 0 <= p < |s| ==> s[p] == LastInjected(calls, i, p, base[p])
  }

  lemma PlacedNext(s: seq<Word>, s': seq<Word>, calls: seq<Call>, i: nat, base: seq<Word>)
    requires i + 1 < |calls| && Placed(s, calls[..|calls| - 1], i, base)
    requires var c := calls[|calls| - 1];
      if c.InjectedChannel? then 1 <= c.rank as nat <= |s| && s' == s[c.rank as nat - 1 := c.channel] else s' == s
    ensures Placed(s', calls, i, base)
  {
  }

  /**
   In every run of all four operations, the converted injected sequence has the length last set, and each of
   its positions converts the channel last placed there since, or what stood at the right end before.
   */
  lemma {:induction false} InjectedOverRuns(states: seq<Registers>, calls: seq<Call>, i: nat)
    requires Run(states, calls) && i < |calls| && calls[i].InjectedLength? && IsLength(calls[i].length)
    requires InRangeAfter(calls, i)
    ensures (LengthIsSmall(calls[i].length); var s, n := Injected(states[|calls|].jsqr), calls[i].length as nat;
      |s| == n && Placed(s, calls, i, AllInjected(states[i].jsqr)[4 - n..]))
    decreases |calls|
  {
    hide Stepped, Injected, AllInjected, WithinLength, IsLength, Placed;
    var m := |calls| - 1;
    LengthIsSmall(calls[i].length);
    var base := AllInjected(states[i].jsqr)[4 - calls[i].length as nat..];
    assert Stepped(states[m], calls[m], states[m + 1]);
    if i == m {
      StepLengthens(states[m], calls[m], states[m + 1]);
      PlacedFirst(base, calls, i);
    } else {
      InjectedOverRuns(states[..m + 1], calls[..m], i);
      StepInjected(states[m], calls[m], states[m + 1], calls[i].length);
      PlacedNext(Injected(states[m].jsqr), Injected(states[m + 1].jsqr), calls, i, base);
    }
  }

  lemma PlacedFirst(base: seq<Word>, calls: seq<Call>, i: nat)
    requires |calls| == i + 1
    ensures Placed(base, calls, i, base)
  {
  }

  // ---------- the driver ----------

  function WithTime(r: Registers, channel: Word, time: Word): Registers
    requires channel < 18
  {
    if channel > 9 then r.(smpr1 := WithField3(r.smpr1, channel - 10, time)) else r.(smpr2 := WithField3(r.smpr2, channel, time))
  }

  function WithRank(r: Registers, rank: Word, channel: Word): Registers
    requires 1 <= rank <= 16
  {
    if rank < 7 then r.(sqr3 := WithField5(r.sqr3, rank - 1, channel))
    else if rank < 13 then r.(sqr2 := WithField5(r.sqr2, rank - 7, channel))
    else r.(sqr1 := WithField5(r.sqr1, rank - 13, channel))
  }

  lemma TimeAt(r: Registers, channel: Word, time: Word, ch: Word)
    requires channel < 18 && time <= 7 && ch < 18
    ensures TimeOf(WithTime(r, channel, time), ch) == if ch == channel then time else TimeOf(r, ch)
  {
    hide Field3, WithField3;
    var c := if channel > 9 then channel - 10 else channel;
    var d := if ch > 9 then ch - 10 else ch;
    Field3At(r.smpr1, c, time, d);
    Field3At(r.smpr2, c, time, d);
  }

  lemma RankAt(r: Registers, rank: Word, channel: Word, k: Word)
    requires 1 <= rank <= 16 && channel < 18 && 1 <= k <= 16
    ensures RankOf(WithRank(r, rank, channel), k) == if k == rank then channel else RankOf(r, k)
  {
    hide Field5, WithField5;
    var q := if rank < 7 then rank - 1 else if rank < 13 then rank - 7 else rank - 13;
    var d := if k < 7 then k - 1 else if k < 13 then k - 7 else k - 13;
    Field5At(r.sqr1, q, channel, d);
    Field5At(r.sqr2, q, channel, d);
    Field5At(r.sqr3, q, channel, d);
  }

  lemma RegularSteps(r: Registers, channel: Word, rank: Word, time: Word)
    requires Regular(channel, rank, time).Valid()
    ensures Stepped(r, Regular(channel, rank, time), WithRank(WithTime(r, channel, time), rank, channel))
  {
    hide RankOf, TimeOf, L, WithField5, WithField3, WithRank, WithTime;
    var m := WithTime(r, channel, time);
    forall k: Word | 1 <= k <= 16
      ensures RankOf(WithRank(m, rank, channel), k) == if k == rank then channel else RankOf(r, k)
    {
      RankAt(m, rank, channel, k);
      TimeLeavesRanks(r, channel, time, k);
    }
    forall ch: Word | ch < 18
      ensures TimeOf(WithRank(m, rank, channel), ch) == if ch == channel then time else TimeOf(r, ch)
    {
      TimeAt(r, channel, time, ch);
      RankLeavesTimes(m, rank, channel, ch);
    }
    RankLeavesLength(m, rank, channel);
    TimeLeavesLengths(r, channel, time);
    RankLeavesJsqr(m, rank, channel);
  }

  lemma TimeLeavesLengths(r: Registers, channel: Word, time: Word)
    requires channel < 18
    ensures var m := WithTime(r, channel, time); m.sqr1 == r.sqr1 && m.jsqr == r.jsqr
  {
  }

  lemma RankLeavesJsqr(r: Registers, rank: Word, channel: Word)
    requires 1 <= rank <= 16
    ensures WithRank(r, rank, channel).jsqr == r.jsqr
  {
  }

  lemma TimeLeavesRanks(r: Registers, channel: Word, time: Word, k: Word)
    requires channel < 18 && 1 <= k <= 16
    ensures RankOf(WithTime(r, channel, time), k) == RankOf(r, k)
  {
    hide Field5, WithField3;
  }

  lemma RankLeavesTimes(r: Registers, rank: Word, channel: Word, ch: Word)
    requires 1 <= rank <= 16 && ch < 18
    ensures TimeOf(WithRank(r, rank, channel), ch) == TimeOf(r, ch)
  {
    hide Field3, WithField5;
  }

  lemma RankLeavesLength(r: Registers, rank: Word, channel: Word)
    requires 1 <= rank <= 16 && channel < 18
    ensures L(WithRank(r, rank, channel).sqr1) == L(r.sqr1)
  {
    hide L, WithField5;
    if rank >= 13 {
      RanksLeaveL(r.sqr1, rank - 13, channel);
    }
  }

  lemma InjectedSteps(r: Registers, channel: Word, rank: Word, time: Word)
    requires InjectedChannel(channel, rank, time).Valid()
    ensures Stepped(r, InjectedChannel(channel, rank, time), WithTime(r, channel, time).(jsqr := ChannelJsqr(r.jsqr, channel, rank)))
  {
    hide Field5, Field3, L, ChannelJsqr, WithField3;
    var m := WithTime(r, channel, time);
    var r' := m.(jsqr := ChannelJsqr(r.jsqr, channel, rank));
    forall k: Word | 1 <= k <= 16
      ensures RankOf(r', k) == RankOf(r, k)
    {
      TimeLeavesRanks(r, channel, time, k);
    }
    forall ch: Word | ch < 18
      ensures TimeOf(r', ch) == if ch == channel then time else TimeOf(r, ch)
    {
      TimeAt(r, channel, time, ch);
    }
  }

  lemma InitSteps(r: Registers, n: Word, r': Registers)
    requires 1 <= n <= 16 && r' == r.(cr1 := r'.cr1, cr2 := r'.cr2, sqr1 := WithL(r.sqr1, n - 1))
    ensures Stepped(r, Init(n), r')
  {
    forall k: Word | 1 <= k <= 16
      ensures RankOf(r', k) == RankOf(r, k)
    {
      if k >= 13 {
        LAt(r.sqr1, n - 1, k - 13);
      }
    }
    LAt(r.sqr1, n - 1, 0);
    hide Field5, Field3, L, WithL;
  }

  /** The fields of `ADC_InitTypeDef`, as the masks the caller passes. */
  datatype Config = Config(mode: Word, scan: bool, continuous: bool, trigger: Word, alignment: Word, channels: Word) {
    predicate Valid() {
      && mode & 0xF_0000 == mode && trigger & 0xE_0000 == trigger && (alignment == 0 || alignment == 0x800)
      && 1 <= channels <= 16
    }
  }

  function Compose1(w: Word, a: Word, b: Word): Word { (w & 0xFFF0_FEFF) | a | b }

  function Compose2(w: Word, a: Word, b: Word): Word { (w & 0xFFF1_F7FD) | a | b }

  function Cr1For(cr1: Word, c: Config): Word {
    Compose1(cr1, c.mode, if c.scan then 0x100 else 0)
  }

  function Cr2For(cr2: Word, c: Config): Word {
    Compose2(cr2, c.alignment | c.trigger, if c.continuous then 2 else 0)
  }

  predicate Cr1Set(before: Word, c: Config, after: Word) {
    after & 0xF_0000 == c.mode && Bit(after, 8) == c.scan && after & 0xFFF0_FEFF == before & 0xFFF0_FEFF
  }

  predicate Cr2Set(before: Word, c: Config, after: Word) {
    after & 0xE_0800 == c.alignment | c.trigger && Bit(after, 1) == c.continuous && after & 0xFFF1_F7FD == before & 0xFFF1_F7FD
  }

  /** The control registers decode to the structure and keep every other bit. */
  predicate Controls(r: Registers, c: Config, r': Registers) {
    Cr1Set(r.cr1, c, r'.cr1) && Cr2Set(r.cr2, c, r'.cr2)
  }

  lemma Cr1Mode(w: Word, mode: Word, s: Word)
    requires mode & 0xF_0000 == mode && s & 0xF_0000 == 0
    ensures Compose1(w, mode, s) & 0xF_0000 == mode
  {
  }

  lemma Cr1Kept(w: Word, mode: Word, s: Word)
    requires mode & 0xF_0000 == mode && (s == 0 || s == 0x100)
    ensures Compose1(w, mode, s) & 0xFFF0_FEFF == w & 0xFFF0_FEFF
  {
  }

  lemma Cr1Scan(w: Word, mode: Word, s: Word)
    requires mode & 0xF_0000 == mode && (s == 0 || s == 0x100)
    ensures Bit(Compose1(w, mode, s), 8) <==> s == 0x100
  {
  }

  lemma Cr1Decodes(cr1: Word, c: Config)
    requires c.Valid()
    ensures Cr1Set(cr1, c, Cr1For(cr1, c))
  {
    hide Bit, Compose1;
    var s: Word := if c.scan then 0x100 else 0;
    Cr1Mode(cr1, c.mode, s);
    Cr1Kept(cr1, c.mode, s);
    Cr1Scan(cr1, c.mode, s);
  }

  lemma Cr2Fields(w: Word, a: Word, s: Word)
    requires a & 0xE_0800 == a && (s == 0 || s == 2)
    ensures Compose2(w, a, s) & 0xE_0800 == a
  {
  }

  lemma Cr2Kept(w: Word, a: Word, s: Word)
    requires a & 0xE_0800 == a && (s == 0 || s == 2)
    ensures Compose2(w, a, s) & 0xFFF1_F7FD == w & 0xFFF1_F7FD
  {
  }

  lemma Cr2Continuous(w: Word, a: Word, s: Word)
    requires a & 0xE_0800 == a && (s == 0 || s == 2)
    ensures Bit(Compose2(w, a, s), 1) <==> s == 2
  {
  }

  lemma Cr2Mask(trigger: Word, alignment: Word)
    requires trigger & 0xE_0000 == trigger && (alignment == 0 || alignment == 0x800)
    ensures (alignment | trigger) & 0xE_0800 == alignment | trigger
  {
  }

  lemma Cr2Decodes(cr2: Word, c: Config)
    requires c.Valid()
    ensures Cr2Set(cr2, c, Cr2For(cr2, c))
  {
    hide Bit, Compose2;
    var a, s: Word := c.alignment | c.trigger, if c.continuous then 2 else 0;
    Cr2Mask(c.trigger, c.alignment);
    Cr2Fields(cr2, a, s);
    Cr2Kept(cr2, a, s);
    Cr2Continuous(cr2, a, s);
  }

  lemma ControlsSet(r: Registers, c: Config)
    requires c.Valid()
    ensures forall l :: Controls(r, c, r.(cr1 := Cr1For(r.cr1, c), cr2 := Cr2For(r.cr2, c), sqr1 := l))
  {
    hide Cr1For, Cr2For, Cr1Set, Cr2Set;
    Cr1Decodes(r.cr1, c);
    Cr2Decodes(r.cr2, c);
  }

  class Converter {
    var regs: Registers

    /** Reset: one regular and one injected conversion, of channel 0. */
    constructor ()
      ensures L(regs.sqr1) == 0 && RankOf(regs, 1) == 0 && Injected(regs.jsqr) == [0]
    {
      regs := Registers(0, 0, 0, 0, 0, 0, 0, 0);
    }

    method Init(c: Config)
      requires c.Valid()
      modifies this
      ensures Stepped(old(regs), Call.Init(c.channels), regs)
      ensures Controls(old(regs), c, regs)
    {
      hide Cr1For, Cr2For, WithL, Stepped, Controls;
      ghost var start := regs;
      ControlsSet(regs, c);
      regs := regs.(cr1 := Cr1For(regs.cr1, c));
      regs := regs.(cr2 := Cr2For(regs.cr2, c));
      regs := regs.(sqr1 := WithL(regs.sqr1, c.channels - 1));
      InitSteps(start, c.channels, regs);
    }

    /** Clears and sets the sample time field of a channel. */
    method SetSampleTime(channel: Word, time: Word)
      requires channel < 18
      modifies this
      ensures regs == WithTime(old(regs), channel, time)
    {
      hide WithField3;
      if channel > 9 {
        regs := regs.(smpr1 := WithField3(regs.smpr1, channel - 10, time));
      } else {
        regs := regs.(smpr2 := WithField3(regs.smpr2, channel, time));
      }
    }

    method RegularChannelConfig(channel: Word, rank: Word, time: Word)
      requires Regular(channel, rank, time).Valid()
      modifies this
      ensures Stepped(old(regs), Regular(channel, rank, time), regs)
    {
      RegularSteps(regs, channel, rank, time);
      hide Stepped, WithField5, WithTime;
      SetSampleTime(channel, time);
      if rank < 7 {
        regs := regs.(sqr3 := WithField5(regs.sqr3, rank - 1, channel));
      } else if rank < 13 {
        regs := regs.(sqr2 := WithField5(regs.sqr2, rank - 7, channel));
      } else {
        regs := regs.(sqr1 := WithField5(regs.sqr1, rank - 13, channel));
      }
    }

    /** Places a channel; the rank may lie past the configured length. */
    method InjectedChannelConfig(channel: Word, rank: Word, time: Word)
      requires InjectedChannel(channel, rank, time).Valid()
      modifies this
      ensures Stepped(old(regs), InjectedChannel(channel, rank, time), regs)
      ensures rank <= JL(old(regs).jsqr) + 1 ==> Injected(regs.jsqr) == Injected(old(regs).jsqr)[rank as nat - 1 := channel]
    {
      InjectedSteps(regs, channel, rank, time);
      InjectedIndexBound(regs.jsqr, rank);
      JLBound(regs.jsqr);
      if rank <= JL(regs.jsqr) + 1 {
        InRangeUpdates(regs.jsqr, channel, rank);
      }
      hide Stepped, WithField5, WithTime, Injected, JL;
      SetSampleTime(channel, time);
      var jl := JL(regs.jsqr);
      regs := regs.(jsqr := WithField5(regs.jsqr, (rank + 3) - (jl + 1), channel));
    }

    method InjectedSequencerLengthConfig(length: Word)
      requires 1 <= length <= 4
      modifies this
      ensures Stepped(old(regs), InjectedLength(length), regs)
      ensures Injected(regs.jsqr) == AllInjected(old(regs).jsqr)[4 - length as nat..]
    {
      LengthKeepsRightEnd(regs.jsqr, length);
      hide WithJL, Injected, AllInjected;
      regs := regs.(jsqr := WithJL(regs.jsqr, length - 1));
    }
  }
}
