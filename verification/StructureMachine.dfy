/** The structure engine as it runs: one forward pass over the rows that keeps
    both sides of the market in separate variables. It is proved to write, row by
    row, what the one-sided machine of `Structure` writes. */
module StructureMachine {
  import opened Domain
  import opened Structure

  datatype StructureError =
    | NegativeMinimumBreak
    | NegativeAtr(position: nat)

  /** The loop's variables between two rows. */
  datatype Locals = Locals(
    trend: Option<Direction>, state: StructureState,
    latestHigh: Option<real>, latestLow: Option<real>,
    detectedHigh: Option<real>, detectedLow: Option<real>,
    cycleHigh: Option<real>, cycleLow: Option<real>,
    protectedHigh: Guard, protectedLow: Guard,
    candidateHigh: Option<real>, candidateLow: Option<real>,
    bullishTarget: Option<real>, bearishTarget: Option<real>,
    bullishSpent: Option<real>, bearishSpent: Option<real>,
    bullishMss: Option<real>, bearishMss: Option<real>,
    bearishHasLH: bool, bullishHasHL: bool,
    originLevel: Option<real>, originIndex: Option<nat>)

  function CandidateOf(v: Locals, d: Direction): Option<real> {
    if d == Bullish then v.candidateLow else v.candidateHigh
  }

  function TargetOf(v: Locals, d: Direction): Option<real> {
    if d == Bullish then v.bullishTarget else v.bearishTarget
  }

  function SpentOf(v: Locals, d: Direction): Option<real> {
    if d == Bullish then v.bullishSpent else v.bearishSpent
  }

  /** The broken-MSS level that belongs to an MSS in direction `d`. */
  function BrokenMss(v: Locals, d: Direction): Option<real> {
    if d == Bullish then v.bullishMss else v.bearishMss
  }

  function HasPullback(v: Locals, d: Direction): bool {
    if d == Bullish then v.bullishHasHL else v.bearishHasLH
  }

  function MemoryOf(v: Locals): Memory {
    Memory(v.detectedHigh, v.detectedLow, v.cycleHigh, v.cycleLow, v.latestHigh, v.latestLow)
  }

  /** Which machine state the variables stand for. Only the running direction's
      candidate and targets matter, and a broken-MSS level is set exactly while
      its own MSS is pending. */
  ghost predicate Represents(v: Locals, s: Snapshot) {
    && v.trend == TrendOf(s.cycle)
    && v.state == StateOf(s.cycle)
    && s.memory == MemoryOf(v)
    && v.protectedHigh == GuardOf(s.cycle, Bearish)
    && v.protectedLow == GuardOf(s.cycle, Bullish)
    && match s.cycle
       case Undecided =>
         && v.candidateHigh.None? && v.candidateLow.None?
         && v.bullishTarget.None? && v.bearishTarget.None?
         && v.bullishSpent.None? && v.bearishSpent.None?
         && Unchallenged(v)
       case Trending(d, _, candidate, target, spent) =>
         && CandidateOf(v, d) == candidate && TargetOf(v, d) == target && SpentOf(v, d) == spent
         && Unchallenged(v)
       case Challenged(d, level, origin, candidate, target, spent, pullback) =>
         && CandidateOf(v, d) == candidate && TargetOf(v, d) == target && SpentOf(v, d) == spent
         && BrokenMss(v, Opposite(d)) == Some(level.price)
         && BrokenMss(v, d).None?
         && !HasPullback(v, d)
         && HasPullback(v, Opposite(d)) == pullback.Some?
         && (pullback.Some? ==> CandidateOf(v, Opposite(d)) == pullback)
         && v.originLevel == Some(level.price) && v.originIndex == Some(origin)
  }

  ghost predicate Unchallenged(v: Locals) {
    && v.bullishMss.None? && v.bearishMss.None?
    && !v.bearishHasLH && !v.bullishHasHL
    && v.originLevel.None? && v.originIndex.None?
  }

  /** A row whose ATR the engine refuses. */
  predicate BadAtr(row: SwingRow) {
    row.close.Some? && row.atr.Some? && row.atr.value < 0.0
  }

  function ReseedGuard(price: Option<real>): Guard {
    if price.None? then NO_GUARD else Guard(price, Some(Active), Some(FromLatestSwing))
  }

  const INITIAL := Locals(None, NeutralState, None, None, None, None, None, None, NO_GUARD, NO_GUARD,
                          None, None, None, None, None, None, None, None, false, false, None, None)

  // ----- The sections of the loop body -----

  /** Classify the row against the baseline of the running cycle. The low is
      read second, so on a double swing its label replaces the high's. */
  method Classify(before: Locals, row: SwingRow)
    returns (v: Locals, tag: Option<Label>, highPrice: Option<real>, lowPrice: Option<real>)
    ensures tag == LabelOf(MemoryOf(before), row)
    ensures highPrice == HighPrice(row) && lowPrice == LowPrice(row)
    ensures v == before.(detectedHigh := Latest(before.detectedHigh, highPrice),
                         detectedLow := Latest(before.detectedLow, lowPrice),
                         cycleHigh := Latest(before.cycleHigh, highPrice),
                         cycleLow := Latest(before.cycleLow, lowPrice))
  {
    v := before;
    tag, highPrice, lowPrice := None, None, None;
    if row.swingHigh {
      highPrice := SwingPrice(true, row.swingHighPrice, row.high);
      if highPrice.Some? {
        v := v.(detectedHigh := highPrice);
        if v.cycleHigh.Some? {
          tag := if highPrice.value > v.cycleHigh.value then Some(HH) else Some(LH);
        }
        v := v.(cycleHigh := highPrice);
      }
    }
    if row.swingLow {
      lowPrice := SwingPrice(true, row.swingLowPrice, row.low);
      if lowPrice.Some? {
        v := v.(detectedLow := lowPrice);
        if v.cycleLow.Some? {
          tag := if lowPrice.value > v.cycleLow.value then Some(HL) else Some(LL);
        }
        v := v.(cycleLow := lowPrice);
      }
    }
  }

  /** What a resolved MSS clears, whichever way it resolves. */
  function Settled(v: Locals): Locals {
    v.(bullishHasHL := false, bearishHasLH := false, bullishMss := None, bearishMss := None,
       originLevel := None, originIndex := None)
  }

  method OnHigherHigh(before: Locals, price: real, ghost c: Cycle, ghost m: Memory)
    returns (v: Locals, event: Option<Event>, confirmation: Option<ConfirmationStep>)
    requires Represents(before, Snapshot(c, m))
    ensures var r := Respond(c, m, Some(HH), Some(price));
            && event == r.event && confirmation == r.confirmation
            && Represents(v, Snapshot(r.cycle, After(r, m.(latestHigh := Some(price)))))
  {
    event, confirmation := None, None;
    v := before.(latestHigh := Some(price), bullishTarget := Some(price));
    if v.state == NeutralState {
      v := v.(trend := Some(Bullish), state := BullishState, protectedLow := ReseedGuard(v.detectedLow));
    } else if v.state == MssBullish {
      if v.bullishHasHL {
        event := Some(Event(CHoCH, Bullish, v.originLevel.value, None, None));
        confirmation := Some(HLToHHConfirmed);
        v := v.(trend := Some(Bullish), state := BullishState,
                protectedLow := Guard(v.candidateLow, Some(Active), Some(FromHL)), protectedHigh := NO_GUARD);
        v := Settled(v);
        v := v.(cycleHigh := None, cycleLow := None, bullishTarget := Some(price), bullishSpent := None);
      }
    } else if v.state == MssBearish {
      event := Some(Event(MSSInvalidated, Bullish, v.originLevel.value, None, v.originIndex));
      v := Settled(v.(state := BullishState));
      v := v.(protectedLow := ReseedGuard(v.detectedLow));
    }
  }

  method OnHigherLow(before: Locals, price: real, ghost c: Cycle, ghost m: Memory)
    returns (v: Locals, confirmation: Option<ConfirmationStep>)
    requires Represents(before, Snapshot(c, m))
    ensures var r := Respond(c, m, Some(HL), Some(price));
            && r.event.None? && confirmation == r.confirmation
            && Represents(v, Snapshot(r.cycle, m.(latestLow := Some(price))))
  {
    confirmation := None;
    v := before.(latestLow := Some(price), candidateLow := Some(price));
    if v.state == NeutralState {
      v := v.(trend := Some(Bullish), state := BullishState,
              protectedLow := Guard(Some(price), Some(Active), Some(FromHL)));
    } else if v.state == BullishState {
      v := v.(protectedLow := Guard(Some(price), Some(Active), Some(FromHL)), bearishMss := None);
    } else if v.state == MssBullish {
      v := v.(bullishHasHL := true);
      confirmation := Some(HLConfirmed);
    }
  }

  method OnLowerLow(before: Locals, price: real, ghost c: Cycle, ghost m: Memory)
    returns (v: Locals, event: Option<Event>, confirmation: Option<ConfirmationStep>)
    requires Represents(before, Snapshot(c, m))
    ensures var r := Respond(c, m, Some(LL), Some(price));
            && event == r.event && confirmation == r.confirmation
            && Represents(v, Snapshot(r.cycle, After(r, m.(latestLow := Some(price)))))
  {
    event, confirmation := None, None;
    v := before.(latestLow := Some(price), bearishTarget := Some(price));
    if v.state == NeutralState {
      v := v.(trend := Some(Bearish), state := BearishState, protectedHigh := ReseedGuard(v.detectedHigh));
    } else if v.state == MssBearish {
      if v.bearishHasLH {
        event := Some(Event(CHoCH, Bearish, v.originLevel.value, None, None));
        confirmation := Some(LHToLLConfirmed);
        v := v.(trend := Some(Bearish), state := BearishState,
                protectedHigh := Guard(v.candidateHigh, Some(Active), Some(FromLH)), protectedLow := NO_GUARD);
        v := Settled(v);
        v := v.(cycleHigh := None, cycleLow := None, bearishTarget := Some(price), bearishSpent := None);
      }
    } else if v.state == MssBullish {
      event := Some(Event(MSSInvalidated, Bearish, v.originLevel.value, None, v.originIndex));
      v := Settled(v.(state := BearishState));
      v := v.(protectedHigh := ReseedGuard(v.detectedHigh));
    }
  }

  method OnLowerHigh(before: Locals, price: real, ghost c: Cycle, ghost m: Memory)
    returns (v: Locals, confirmation: Option<ConfirmationStep>)
    requires Represents(before, Snapshot(c, m))
    ensures var r := Respond(c, m, Some(LH), Some(price));
            && r.event.None? && confirmation == r.confirmation
            && Represents(v, Snapshot(r.cycle, m.(latestHigh := Some(price))))
  {
    confirmation := None;
    v := before.(latestHigh := Some(price), candidateHigh := Some(price));
    if v.state == NeutralState {
      v := v.(trend := Some(Bearish), state := BearishState,
              protectedHigh := Guard(Some(price), Some(Active), Some(FromLH)));
    } else if v.state == BearishState {
      v := v.(protectedHigh := Guard(Some(price), Some(Active), Some(FromLH)), bullishMss := None);
    } else if v.state == MssBearish {
      v := v.(bearishHasLH := true);
      confirmation := Some(LHConfirmed);
    }
  }

  method CheckBullish(before: Locals, close: real, required: real, position: nat, ghost c: Cycle, ghost m: Memory)
    returns (v: Locals, event: Option<Event>)
    requires Represents(before, Snapshot(c, m)) && before.state == BullishState
    requires c.Trending? && (c.candidate.Some? ==> c.anchor.Some?)
    ensures var o := Break(c, close, required, position);
            event == o.event && Represents(v, Snapshot(o.cycle, m))
  {
    v, event := before, None;
    if v.protectedLow.level.Some? {
      var distance := v.protectedLow.level.value - close;
      if distance >= required && v.bearishMss != v.protectedLow.level {
        event := Some(Event(MSS, Bearish, v.protectedLow.level.value, Some(distance), None));
        v := v.(state := MssBearish,
                bearishMss := v.protectedLow.level, originLevel := v.protectedLow.level, originIndex := Some(position),
                protectedLow := v.protectedLow.(status := Some(Broken)),
                bearishHasLH := false, bullishHasHL := false);
      }
    }
    if event.None? && v.bullishTarget.Some? && v.bullishSpent != v.bullishTarget {
      var distance := close - v.bullishTarget.value;
      if distance >= required {
        event := Some(Event(BOS, Bullish, v.bullishTarget.value, Some(distance), None));
        v := v.(bullishSpent := v.bullishTarget);
        if v.candidateLow.Some? {
          v := v.(protectedLow := v.protectedLow.(level := v.candidateLow));
        }
      }
    }
  }

  method CheckBearish(before: Locals, close: real, required: real, position: nat, ghost c: Cycle, ghost m: Memory)
    returns (v: Locals, event: Option<Event>)
    requires Represents(before, Snapshot(c, m)) && before.state == BearishState
    requires c.Trending? && (c.candidate.Some? ==> c.anchor.Some?)
    ensures var o := Break(c, close, required, position);
            event == o.event && Represents(v, Snapshot(o.cycle, m))
  {
    v, event := before, None;
    if v.protectedHigh.level.Some? {
      var distance := close - v.protectedHigh.level.value;
      if distance >= required && v.bullishMss != v.protectedHigh.level {
        event := Some(Event(MSS, Bullish, v.protectedHigh.level.value, Some(distance), None));
        v := v.(state := MssBullish,
                bullishMss := v.protectedHigh.level, originLevel := v.protectedHigh.level,
                originIndex := Some(position),
                protectedHigh := v.protectedHigh.(status := Some(Broken)),
                bullishHasHL := false, bearishHasLH := false);
      }
    }
    if event.None? && v.bearishTarget.Some? && v.bearishSpent != v.bearishTarget {
      var distance := v.bearishTarget.value - close;
      if distance >= required {
        event := Some(Event(BOS, Bearish, v.bearishTarget.value, Some(distance), None));
        v := v.(bearishSpent := v.bearishTarget);
        if v.candidateHigh.Some? {
          v := v.(protectedHigh := v.protectedHigh.(level := v.candidateHigh));
        }
      }
    }
  }

  /** Sections 1a and 1: everything the row's swings decide. */
  method ReadSwings(before: Locals, row: SwingRow, ghost s: Snapshot)
    returns (v: Locals, tag: Option<Label>, event: Option<Event>, confirmation: Option<ConfirmationStep>)
    requires Represents(before, s)
    ensures tag == LabelOf(s.memory, row)
    ensures var m := Remember(s.memory, row);
            var r := Respond(s.cycle, m, tag, LabelPrice(tag, row));
            && event == r.event && confirmation == r.confirmation
            && Represents(v, Snapshot(r.cycle, After(r, m)))
  {
    var highPrice, lowPrice;
    v, tag, highPrice, lowPrice := Classify(before, row);
    event, confirmation := None, None;
    ghost var m := Remember(s.memory, row);
    ghost var read := m.(latestHigh := s.memory.latestHigh, latestLow := s.memory.latestLow);
    assert Represents(v, Snapshot(s.cycle, read));
    ReadIgnoresLatest(s.cycle, read, m, tag, LabelPrice(tag, row));
    if tag == Some(HH) {
      v, event, confirmation := OnHigherHigh(v, highPrice.value, s.cycle, read);
    } else if tag == Some(HL) {
      v, confirmation := OnHigherLow(v, lowPrice.value, s.cycle, read);
    } else if tag == Some(LL) {
      v, event, confirmation := OnLowerLow(v, lowPrice.value, s.cycle, read);
    } else if tag == Some(LH) {
      v, confirmation := OnLowerHigh(v, highPrice.value, s.cycle, read);
    }
  }

  /** The memory a swing response leaves behind. */
  function After(r: Response, m: Memory): Memory {
    if r.event.Some? && r.event.value.kind == CHoCH then ForgetCycle(m) else m
  }

  lemma {:induction false} ReadIgnoresLatest(c: Cycle, m: Memory, n: Memory, tag: Option<Label>, price: Option<real>)
    requires m.detectedHigh == n.detectedHigh && m.detectedLow == n.detectedLow
    ensures Respond(c, m, tag, price) == Respond(c, n, tag, price)
  {
  }

  /** Sections 3 and 4: what the close decides, when nothing was decided yet. */
  method ReadClose(before: Locals, decided: Option<Event>, row: SwingRow, minimumBreak: real, position: nat,
                   ghost c: Cycle, ghost m: Memory)
    returns (v: Locals, event: Option<Event>)
    requires Represents(before, Snapshot(c, m)) && Sound(Snapshot(c, m), position)
    ensures var required := Required(row, minimumBreak);
            if decided.Some? || required.None? then event == decided && v == before
            else var o := Break(c, row.close.value, required.value, position);
                 event == o.event && Represents(v, Snapshot(o.cycle, m))
  {
    v, event := before, decided;
    var required := Required(row, minimumBreak);
    if required.Some? && v.state == BullishState && event.None? {
      v, event := CheckBullish(v, row.close.value, required.value, position, c, m);
    } else if required.Some? && v.state == BearishState && event.None? {
      v, event := CheckBearish(v, row.close.value, required.value, position, c, m);
    }
  }

  /** The cells written for a row. */
  function WrittenCells(before: Locals, v: Locals, tag: Option<Label>, event: Option<Event>,
                        confirmation: Option<ConfirmationStep>, required: Option<real>): OutRow
  {
    var e := event;
    OutRow(
      tag, v.trend, v.state,
      if e.Some? then Some(e.value.kind) else None,
      if e.Some? then Some(e.value.dir) else None,
      v.latestHigh, v.latestLow, v.protectedHigh, v.protectedLow,
      if e.Some? then Some(e.value.level) else None,
      if e.Some? then e.value.distance else None,
      if e.Some? then required else None,
      confirmation, v.originLevel, v.originIndex,
      if e.Some? then e.value.invalidatedOrigin else None,
      before.trend, v.trend, before.state, v.state)
  }

  lemma {:induction false} CellsAgree(before: Locals, v: Locals, s: Snapshot, tag: Option<Label>, move: Move,
                                      required: Option<real>)
    requires Represents(before, s) && Represents(v, move.next)
    ensures WrittenCells(before, v, tag, move.event, move.confirmation, required) == Cells(s.cycle, tag, move, required)
  {
  }

  /** One pass through the loop body. */
  method Process(before: Locals, row: SwingRow, minimumBreak: real, position: nat, ghost s: Snapshot)
    returns (result: Result<(Locals, OutRow), StructureError>)
    requires Represents(before, s) && Sound(s, position)
    ensures result.Success? <==> !BadAtr(row)
    ensures result.Failure? ==> result.error == NegativeAtr(position)
    ensures result.Success? ==>
            && result.value.1 == Written(s, row, minimumBreak, position)
            && Represents(result.value.0, Advanced(s, row, minimumBreak, position).next)
  {
    var v, tag, event, confirmation := ReadSwings(before, row, s);
    if BadAtr(row) {
      return Failure(NegativeAtr(position));
    }
    ghost var m := Remember(s.memory, row);
    ghost var r := Respond(s.cycle, m, tag, LabelPrice(tag, row));
    RespondKeepsSound(s, row, position);
    assert Sound(Snapshot(r.cycle, After(r, m)), position);
    v, event := ReadClose(v, event, row, minimumBreak, position, r.cycle, After(r, m));
    CellsAgree(before, v, s, tag, Advanced(s, row, minimumBreak, position), Required(row, minimumBreak));
    return Success((v, WrittenCells(before, v, tag, event, confirmation, Required(row, minimumBreak))));
  }

  lemma {:induction false} InitialRepresents(rows: seq<SwingRow>, minimumBreak: real)
    ensures Represents(INITIAL, At(rows, minimumBreak, 0))
  {
  }

  lemma {:induction false} NextState(rows: seq<SwingRow>, minimumBreak: real, p: nat)
    requires p < |rows|
    ensures At(rows, minimumBreak, p + 1) == Advanced(At(rows, minimumBreak, p), rows[p], minimumBreak, p).next
    ensures OutAt(rows, minimumBreak, p) == Written(At(rows, minimumBreak, p), rows[p], minimumBreak, p)
  {
    hide Advanced, Written;
  }

  lemma {:induction false} RunIs(rows: seq<SwingRow>, minimumBreak: real, written: seq<OutRow>)
    requires |written| == |rows| && forall i :: 0 <= i < |rows| ==> written[i] == OutAt(rows, minimumBreak, i)
    ensures written == Run(rows, minimumBreak)
  {
    hide OutAt;
  }

  method DetectStructureState(rows: seq<SwingRow>, minimumBreak: real)
    returns (result: Result<seq<OutRow>, StructureError>)
    ensures result == Failure(NegativeMinimumBreak) <==> minimumBreak < 0.0
    ensures result.Success? <==>
            minimumBreak >= 0.0 && forall i :: 0 <= i < |rows| ==> !BadAtr(rows[i])
    ensures result.Success? ==> result.value == Run(rows, minimumBreak)
    ensures result.Failure? && result.error.NegativeAtr? ==>
            && result.error.position < |rows| && BadAtr(rows[result.error.position])
            && forall i :: 0 <= i < result.error.position ==> !BadAtr(rows[i])
  {
    hide At, OutAt, Run, Advanced, Written, Represents, Sound, BadAtr;
    if minimumBreak < 0.0 {
      return Failure(NegativeMinimumBreak);
    }
    InitialRepresents(rows, minimumBreak);
    var written: seq<OutRow> := [];
    var v := INITIAL;
    for position := 0 to |rows|
      invariant forall i :: 0 <= i < position ==> !BadAtr(rows[i])
      invariant |written| == position
      invariant forall i :: 0 <= i < position ==> written[i] == OutAt(rows, minimumBreak, i)
      invariant Represents(v, At(rows, minimumBreak, position))
    {
      ghost var s := At(rows, minimumBreak, position);
      RunsAreSound(rows, minimumBreak, position);
      NextState(rows, minimumBreak, position);
      var row := rows[position];
      var cells := Process(v, row, minimumBreak, position, s);
      if cells.Failure? {
        return Failure(cells.error);
      }
      v := cells.value.0;
      written := written + [cells.value.1];
    }
    RunIs(rows, minimumBreak, written);
    return Success(written);
  }
}
