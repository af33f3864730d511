/**
 The external interrupt controller: a register file addressed by offsets that the configuration
 structure itself carries, one bit a line in each register (RM0008, section 10.3).
 */
module Exti {
  import opened Bits

  // Word indices of the registers; each is a quarter of the byte offset.
  const IMR: nat := 0
  const EMR: nat := 1
  const RTSR: nat := 2
  const FTSR: nat := 3
  const PR: nat := 5

  datatype Mode = Interrupt | Event
  datatype Trigger = Rising | Falling | Both

  datatype Config = Config(lines: Word, mode: Mode, trigger: Trigger, enable: bool)

  /** The byte offsets the enumerations stand for. */
  function ModeOffset(m: Mode): nat { if m.Interrupt? then 0x00 else 0x04 }

  function TriggerOffset(t: Trigger): nat { if t.Rising? then 0x08 else if t.Falling? then 0x0C else 0x10 }

  /** The register at a byte offset from the controller's base address. */
  function Index(offset: nat): nat
    requires offset % 4 == 0
  {
    offset / 4
  }

  /** What the controller does with one line. */
  datatype Line = Line(interrupt: bool, event: bool, rising: bool, falling: bool)

  function LineOf(regs: seq<Word>, j: Word): Line
    requires |regs| == 6 && j < 32
  {
    Line(Bit(regs[IMR], j), Bit(regs[EMR], j), Bit(regs[RTSR], j), Bit(regs[FTSR], j))
  }

  /** The line after a call that selects it. */
  function Set(l: Line, c: Config): Line {
    if c.enable then Line(c.mode.Interrupt?, c.mode.Event?, !c.trigger.Falling?, !c.trigger.Rising?)
    else if c.mode.Interrupt? then l.(interrupt := false)
    else l.(event := false)
  }

  /** One call: selected lines are set, all others and the two other registers are as before. */
  ghost predicate Configured(r: seq<Word>, c: Config, r': seq<Word>) {
    && |r| == |r'| == 6 && r'[4..] == r[4..]
    && forall j: Word :: j < 32 ==> LineOf(r', j) == if Bit(c.lines, j) then Set(LineOf(r, j), c) else LineOf(r, j)
  }

  lemma OffAt(w: Word, lines: Word)
    ensures forall j: Word :: j < 32 ==> Bit(Cleared(w, lines), j) == (Bit(w, j) && !Bit(lines, j))
  {
    hide Bit, Cleared;
    forall j: Word | j < 32
      ensures Bit(Cleared(w, lines), j) == (Bit(w, j) && !Bit(lines, j))
    {
      ClearedAt(w, lines, j);
    }
  }

  lemma OnAt(w: Word, lines: Word)
    ensures forall j: Word :: j < 32 ==> Bit(Raised(w, lines), j) == (Bit(w, j) || Bit(lines, j))
  {
    hide Bit, Raised;
    forall j: Word | j < 32
      ensures Bit(Raised(w, lines), j) == (Bit(w, j) || Bit(lines, j))
    {
      RaisedAt(w, lines, j);
    }
  }

  // ---------- runs ----------

  /** No line is both an interrupt and an event. */
  ghost predicate Exclusive(r: seq<Word>) {
    |r| == 6 && forall j: Word :: j < 32 ==> !(LineOf(r, j).interrupt && LineOf(r, j).event)
  }

  /** States linked by calls. */
  ghost predicate Run(states: seq<seq<Word>>, calls: seq<Config>) {
    && |states| == |calls| + 1
    && forall i :: 0 <= i < |calls| ==> Configured(states[i], calls[i], states[i + 1])
  }

  /** From the state EXTI_DeInit leaves, no run of calls puts a line in both masks. */
  lemma {:induction false} RunStaysExclusive(states: seq<seq<Word>>, calls: seq<Config>)
    requires Run(states, calls) && Exclusive(states[0])
    ensures Exclusive(states[|calls|])
    decreases |calls|
  {
    hide LineOf, Bit;
    var n := |calls|;
    if n > 0 {
      RunStaysExclusive(states[..n], calls[..n - 1]);
      assert Configured(states[n - 1], calls[n - 1], states[n]);
    }
  }

  /** A line's edges are those of the last call that enabled it; calls that disable it leave them alone. */
  lemma {:induction false} LastEnableSetsEdges(states: seq<seq<Word>>, calls: seq<Config>, i: nat, j: Word)
    requires Run(states, calls) && i < |calls| && j < 32
    requires calls[i].enable && Bit(calls[i].lines, j)
    requires forall k :: i < k < |calls| ==> !(calls[k].enable && Bit(calls[k].lines, j))
    ensures |states[|calls|]| == 6
    ensures var l := LineOf(states[|calls|], j);
      l.rising == !calls[i].trigger.Falling? && l.falling == !calls[i].trigger.Rising?
    decreases |calls|
  {
    hide LineOf, Bit;
    var n := |calls| - 1;
    assert Configured(states[n], calls[n], states[n + 1]);
    if i < n {
      LastEnableSetsEdges(states[..n + 1], calls[..n], i, j);
    }
  }

  /** A line last selected by an enabling call is as that call asks: one of the masks and the edges of its trigger. */
  lemma {:induction false} LastCallSetsLine(states: seq<seq<Word>>, calls: seq<Config>, i: nat, j: Word)
    requires Run(states, calls) && i < |calls| && j < 32
    requires calls[i].enable && Bit(calls[i].lines, j)
    requires forall k :: i < k < |calls| ==> !Bit(calls[k].lines, j)
    ensures |states[|calls|]| == 6
    ensures var c, r := calls[i], states[|calls|];
      && Bit(r[0], j) == c.mode.Interrupt? && Bit(r[1], j) == c.mode.Event?
      && Bit(r[2], j) == (c.trigger.Rising? || c.trigger.Both?) && Bit(r[3], j) == (c.trigger.Falling? || c.trigger.Both?)
    decreases |calls|
  {
    hide Bit;
    var n := |calls| - 1;
    assert Configured(states[n], calls[n], states[n + 1]);
    assert LineOf(states[n + 1], j) == if Bit(calls[n].lines, j) then Set(LineOf(states[n], j), calls[n]) else LineOf(states[n], j);
    if i < n {
      LastCallSetsLine(states[..n + 1], calls[..n], i, j);
    }
  }

  /** Neither an interrupt nor an event. */
  predicate Off(l: Line) { !l.interrupt && !l.event }

  /** A disabling call clears one mask only: it turns a line off exactly when the other mask does not have it. */
  lemma DisableTurnsOff(r: seq<Word>, c: Config, r': seq<Word>, j: Word)
    requires Configured(r, c, r') && !c.enable && j < 32 && Bit(c.lines, j)
    ensures Off(LineOf(r', j)) <==> !(if c.mode.Interrupt? then LineOf(r, j).event else LineOf(r, j).interrupt)
  {
    hide LineOf, Bit;
    assert LineOf(r', j) == Set(LineOf(r, j), c);
  }

  /** The structure's default mode is Interrupt: a call that disables line 0 with it leaves an event line on. */
  lemma DisableMayMiss()
    ensures var c := Config(1, Interrupt, Falling, false);
      exists r, r' :: Configured(r, c, r') && !Off(LineOf(r', 0))
  {
    var c := Config(1, Interrupt, Falling, false);
    var r: seq<Word> := [0, 1, 0, 0, 0, 0];
    assert Configured(r, c, r);
    assert LineOf(r, 0).event;
  }

  class Controller {
    const regs: array<Word>

    ghost predicate Valid() reads this { regs.Length == 6 }

    constructor ()
      ensures Valid() && fresh(regs)
    {
      regs := new Word[6];
    }

    /** Reset state; writing ones to PR clears the pending bits of the twenty lines. */
    method DeInit()
      requires Valid()
      modifies regs
      ensures Exclusive(regs[..]) && regs[4] == old(regs[4])
      ensures forall j: Word :: j < 32 ==> LineOf(regs[..], j) == Line(false, false, false, false)
      ensures forall j: Word :: j < 20 ==> !Bit(regs[PR], j)
    {
      regs[IMR] := 0;
      regs[EMR] := 0;
      regs[RTSR] := 0;
      regs[FTSR] := 0;
      OffAt(regs[PR], 0x000F_FFFF);
      regs[PR] := Cleared(regs[PR], 0x000F_FFFF);
    }

    /** Both masks without the selected lines, then the mask of the mode with them. */
    method SelectMode(c: Config)
      requires Valid()
      modifies regs
      ensures regs[2..] == old(regs[2..])
      ensures forall j: Word :: j < 32 ==>
        && Bit(regs[IMR], j) == (if Bit(c.lines, j) then c.mode.Interrupt? else Bit(old(regs[IMR]), j))
        && Bit(regs[EMR], j) == (if Bit(c.lines, j) then c.mode.Event? else Bit(old(regs[EMR]), j))
    {
      hide Bit, Cleared, Raised;
      OffAt(regs[IMR], c.lines);
      regs[IMR] := Cleared(regs[IMR], c.lines);
      OffAt(regs[EMR], c.lines);
      regs[EMR] := Cleared(regs[EMR], c.lines);
      var tmp := ModeOffset(c.mode);
      OnAt(regs[Index(tmp)], c.lines);
      regs[Index(tmp)] := Raised(regs[Index(tmp)], c.lines);
    }

    /** Both edge registers without the selected lines, then those of the trigger with them. */
    method SelectTrigger(c: Config)
      requires Valid()
      modifies regs
      ensures regs[..2] == old(regs[..2]) && regs[4..] == old(regs[4..])
      ensures forall j: Word :: j < 32 ==>
        && Bit(regs[RTSR], j) == (if Bit(c.lines, j) then !c.trigger.Falling? else Bit(old(regs[RTSR]), j))
        && Bit(regs[FTSR], j) == (if Bit(c.lines, j) then !c.trigger.Rising? else Bit(old(regs[FTSR]), j))
    {
      hide Bit, Cleared, Raised;
      OffAt(regs[RTSR], c.lines);
      regs[RTSR] := Cleared(regs[RTSR], c.lines);
      OffAt(regs[FTSR], c.lines);
      regs[FTSR] := Cleared(regs[FTSR], c.lines);
      if c.trigger.Both? {
        OnAt(regs[RTSR], c.lines);
        regs[RTSR] := Raised(regs[RTSR], c.lines);
        OnAt(regs[FTSR], c.lines);
        regs[FTSR] := Raised(regs[FTSR], c.lines);
      } else {
        var tmp := TriggerOffset(c.trigger);
        OnAt(regs[Index(tmp)], c.lines);
        regs[Index(tmp)] := Raised(regs[Index(tmp)], c.lines);
      }
    }

    method Init(c: Config)
      requires Valid()
      modifies regs
      ensures Configured(old(regs[..]), c, regs[..])
    {
      hide Bit, Cleared, Raised;
      if c.enable {
        SelectMode(c);
        SelectTrigger(c);
      } else {
        var tmp := ModeOffset(c.mode);
        OffAt(regs[Index(tmp)], c.lines);
        regs[Index(tmp)] := Cleared(regs[Index(tmp)], c.lines);
      }
    }
  }
}
