/** Reflecting prices in a horizontal line exchanges the bullish and the bearish
    side of a run. The swing-driven and close-driven transitions always commute
    with reflection; classification does exactly on rows whose labelled swing does
    not tie its baseline and which are not labelled on both sides. */
module Reflection {
  import opened Domain
  import opened Structure
  import opened Swings

  // ----- Mirror images -----

  function Mirrored(p: Option<real>, mirror: real): Option<real> {
    if p.None? then None else Some(mirror - p.value)
  }

  function MirrorRow(r: SwingRow, mirror: real): SwingRow {
    SwingRow(Mirrored(r.low, mirror), Mirrored(r.high, mirror), Mirrored(r.close, mirror), r.atr,
             r.swingLow, r.swingHigh, Mirrored(r.swingLowPrice, mirror), Mirrored(r.swingHighPrice, mirror))
  }

  function MirrorLabel(l: Label): Label {
    match l
    case HH => LL
    case LL => HH
    case HL => LH
    case LH => HL
  }

  function MirrorTag(l: Option<Label>): Option<Label> {
    if l.None? then None else Some(MirrorLabel(l.value))
  }

  function MirrorDirection(d: Option<Direction>): Option<Direction> {
    if d.None? then None else Some(Opposite(d.value))
  }

  function MirrorMemory(m: Memory, mirror: real): Memory {
    Memory(Mirrored(m.detectedLow, mirror), Mirrored(m.detectedHigh, mirror),
           Mirrored(m.cycleLow, mirror), Mirrored(m.cycleHigh, mirror),
           Mirrored(m.latestLow, mirror), Mirrored(m.latestHigh, mirror))
  }

  function MirrorSource(s: LevelSource): LevelSource {
    match s
    case FromHL => FromLH
    case FromLH => FromHL
    case FromLatestSwing => FromLatestSwing
  }

  function MirrorLevel(l: Level, mirror: real): Level {
    Level(mirror - l.price, MirrorSource(l.source))
  }

  function MirrorAnchor(l: Option<Level>, mirror: real): Option<Level> {
    if l.None? then None else Some(MirrorLevel(l.value, mirror))
  }

  function MirrorCycle(c: Cycle, mirror: real): Cycle {
    match c
    case Undecided => Undecided
    case Trending(d, anchor, candidate, target, spent) =>
      Trending(Opposite(d), MirrorAnchor(anchor, mirror), Mirrored(candidate, mirror),
               Mirrored(target, mirror), Mirrored(spent, mirror))
    case Challenged(d, level, origin, candidate, target, spent, pullback) =>
      Challenged(Opposite(d), MirrorLevel(level, mirror), origin, Mirrored(candidate, mirror),
                 Mirrored(target, mirror), Mirrored(spent, mirror), Mirrored(pullback, mirror))
  }

  function MirrorSnapshot(s: Snapshot, mirror: real): Snapshot {
    Snapshot(MirrorCycle(s.cycle, mirror), MirrorMemory(s.memory, mirror))
  }

  function MirrorEvent(e: Option<Event>, mirror: real): Option<Event> {
    if e.None? then None
    else Some(Event(e.value.kind, Opposite(e.value.dir), mirror - e.value.level, e.value.distance,
                    e.value.invalidatedOrigin))
  }

  function MirrorStep(s: Option<ConfirmationStep>): Option<ConfirmationStep> {
    match s
    case None => None
    case Some(HLConfirmed) => Some(LHConfirmed)
    case Some(LHConfirmed) => Some(HLConfirmed)
    case Some(HLToHHConfirmed) => Some(LHToLLConfirmed)
    case Some(LHToLLConfirmed) => Some(HLToHHConfirmed)
  }

  function MirrorState(s: StructureState): StructureState {
    match s
    case NeutralState => NeutralState
    case BullishState => BearishState
    case BearishState => BullishState
    case MssBullish => MssBearish
    case MssBearish => MssBullish
  }

  function MirrorGuard(g: Guard, mirror: real): Guard {
    Guard(Mirrored(g.level, mirror), g.status, if g.source.None? then None else Some(MirrorSource(g.source.value)))
  }

  function MirrorOut(o: OutRow, mirror: real): OutRow {
    OutRow(
      MirrorTag(o.tag), MirrorDirection(o.trend), MirrorState(o.state),
      o.event, MirrorDirection(o.direction),
      Mirrored(o.latestLow, mirror), Mirrored(o.latestHigh, mirror),
      MirrorGuard(o.protectedLow, mirror), MirrorGuard(o.protectedHigh, mirror),
      Mirrored(o.brokenLevel, mirror), o.breakDistance, o.requiredDistance,
      MirrorStep(o.confirmation),
      Mirrored(o.originLevel, mirror), o.originIndex, o.invalidatedOrigin,
      MirrorDirection(o.trendBefore), MirrorDirection(o.trendAfter),
      MirrorState(o.stateBefore), MirrorState(o.stateAfter))
  }

  // ----- The transition core commutes unconditionally -----

  lemma {:induction false} RespondMirrors(c: Cycle, m: Memory, tag: Option<Label>, price: Option<real>, mirror: real)
    ensures
      var r := Respond(c, m, tag, price);
      Respond(MirrorCycle(c, mirror), MirrorMemory(m, mirror), MirrorTag(tag), Mirrored(price, mirror))
      == Response(MirrorCycle(r.cycle, mirror), MirrorEvent(r.event, mirror), MirrorStep(r.confirmation))
  {
  }

  lemma {:induction false} BreakMirrors(c: Cycle, close: real, required: real, position: nat, mirror: real)
    ensures
      var o := Break(c, close, required, position);
      Break(MirrorCycle(c, mirror), mirror - close, required, position)
      == Outcome(MirrorCycle(o.cycle, mirror), MirrorEvent(o.event, mirror))
  {
  }

  // ----- Classification commutes exactly on untied rows -----

  function HighTag(m: Memory, row: SwingRow): Option<Label> { HighLabel(m.cycleHigh, HighPrice(row)) }

  function LowTag(m: Memory, row: SwingRow): Option<Label> { LowLabel(m.cycleLow, LowPrice(row)) }

  /** Not labelled on both sides, and no labelled swing equal to its baseline. */
  predicate Untied(m: Memory, row: SwingRow) {
    && !(HighTag(m, row).Some? && LowTag(m, row).Some?)
    && (HighTag(m, row).Some? ==> HighPrice(row) != m.cycleHigh)
    && (LowTag(m, row).Some? ==> LowPrice(row) != m.cycleLow)
  }

  lemma {:induction false} PricesMirror(row: SwingRow, mirror: real)
    ensures HighPrice(MirrorRow(row, mirror)) == Mirrored(LowPrice(row), mirror)
    ensures LowPrice(MirrorRow(row, mirror)) == Mirrored(HighPrice(row), mirror)
  {
  }

  lemma {:induction false} LabelMirrorsIffUntied(m: Memory, row: SwingRow, mirror: real)
    ensures LabelOf(MirrorMemory(m, mirror), MirrorRow(row, mirror)) == MirrorTag(LabelOf(m, row)) <==> Untied(m, row)
  {
    PricesMirror(row, mirror);
  }

  lemma {:induction false} RememberMirrors(m: Memory, row: SwingRow, mirror: real)
    requires Untied(m, row)
    ensures Remember(MirrorMemory(m, mirror), MirrorRow(row, mirror)) == MirrorMemory(Remember(m, row), mirror)
    ensures LabelPrice(MirrorTag(LabelOf(m, row)), MirrorRow(row, mirror))
            == Mirrored(LabelPrice(LabelOf(m, row), row), mirror)
  {
    PricesMirror(row, mirror);
    LabelMirrorsIffUntied(m, row, mirror);
  }

  function MirrorMove(m: Move, mirror: real): Move {
    Move(MirrorSnapshot(m.next, mirror), MirrorEvent(m.event, mirror), MirrorStep(m.confirmation))
  }

  function MirrorResponse(r: Response, mirror: real): Response {
    Response(MirrorCycle(r.cycle, mirror), MirrorEvent(r.event, mirror), MirrorStep(r.confirmation))
  }

  lemma {:induction false} SwingResponseMirrors(s: Snapshot, row: SwingRow, mirror: real)
    requires Untied(s.memory, row)
    ensures SwingResponse(MirrorSnapshot(s, mirror), MirrorRow(row, mirror))
            == MirrorResponse(SwingResponse(s, row), mirror)
  {
    var tag, memory := LabelOf(s.memory, row), Remember(s.memory, row);
    LabelMirrorsIffUntied(s.memory, row, mirror);
    RememberMirrors(s.memory, row, mirror);
    RespondMirrors(s.cycle, memory, tag, LabelPrice(tag, row), mirror);
  }

  lemma {:induction false} DecideMirrors(swing: Response, memory: Memory, row: SwingRow, minimumBreak: real,
                                        position: nat, mirror: real)
    ensures Decide(MirrorResponse(swing, mirror), MirrorMemory(memory, mirror), MirrorRow(row, mirror),
                   minimumBreak, position)
            == MirrorMove(Decide(swing, memory, row, minimumBreak, position), mirror)
  {
    var required := Required(row, minimumBreak);
    if swing.event.None? && required.Some? {
      BreakMirrors(swing.cycle, row.close.value, required.value, position, mirror);
    }
  }

  lemma {:induction false} AdvanceMirrors(s: Snapshot, row: SwingRow, minimumBreak: real, position: nat, mirror: real)
    requires Untied(s.memory, row)
    ensures Advanced(MirrorSnapshot(s, mirror), MirrorRow(row, mirror), minimumBreak, position)
            == MirrorMove(Advanced(s, row, minimumBreak, position), mirror)
  {
    RememberMirrors(s.memory, row, mirror);
    SwingResponseMirrors(s, row, mirror);
    DecideMirrors(SwingResponse(s, row), Remember(s.memory, row), row, minimumBreak, position, mirror);
  }

  lemma {:induction false} GuardsMirror(c: Cycle, d: Direction, mirror: real)
    ensures GuardOf(MirrorCycle(c, mirror), Opposite(d)) == MirrorGuard(GuardOf(c, d), mirror)
    ensures StateOf(MirrorCycle(c, mirror)) == MirrorState(StateOf(c))
    ensures TrendOf(MirrorCycle(c, mirror)) == MirrorDirection(TrendOf(c))
  {
  }

  lemma {:induction false} CellsMirror(before: Cycle, tag: Option<Label>, move: Move, required: Option<real>,
                                       mirror: real)
    ensures Cells(MirrorCycle(before, mirror), MirrorTag(tag), MirrorMove(move, mirror), required)
            == MirrorOut(Cells(before, tag, move, required), mirror)
  {
    GuardsMirror(before, Bullish, mirror);
    GuardsMirror(move.next.cycle, Bullish, mirror);
    GuardsMirror(move.next.cycle, Bearish, mirror);
  }

  lemma {:induction false} RequiredMirrors(row: SwingRow, minimumBreak: real, mirror: real)
    ensures Required(MirrorRow(row, mirror), minimumBreak) == Required(row, minimumBreak)
  {
  }

  lemma {:induction false} WrittenMirrors(s: Snapshot, row: SwingRow, minimumBreak: real, position: nat, mirror: real)
    requires Untied(s.memory, row)
    ensures Written(MirrorSnapshot(s, mirror), MirrorRow(row, mirror), minimumBreak, position)
            == MirrorOut(Written(s, row, minimumBreak, position), mirror)
  {
    AdvanceMirrors(s, row, minimumBreak, position, mirror);
    LabelMirrorsIffUntied(s.memory, row, mirror);
    RequiredMirrors(row, minimumBreak, mirror);
    CellsMirror(s.cycle, LabelOf(s.memory, row), Advanced(s, row, minimumBreak, position),
                Required(row, minimumBreak), mirror);
  }

  // ----- Whole runs -----

  function MirrorRows(rows: seq<SwingRow>, mirror: real): seq<SwingRow> {
    seq(|rows|, i requires 0 <= i < |rows| => MirrorRow(rows[i], mirror))
  }

  function MirrorOuts(outs: seq<OutRow>, mirror: real): seq<OutRow> {
    seq(|outs|, i requires 0 <= i < |outs| => MirrorOut(outs[i], mirror))
  }

  predicate UntiedAt(rows: seq<SwingRow>, minimumBreak: real, i: nat)
    requires i < |rows|
  {
    Untied(At(rows, minimumBreak, i).memory, rows[i])
  }

  predicate UntiedRun(rows: seq<SwingRow>, minimumBreak: real) {
    forall i :: 0 <= i < |rows| ==> UntiedAt(rows, minimumBreak, i)
  }

  lemma {:induction false} MirrorsWhileUntied(rows: seq<SwingRow>, minimumBreak: real, mirror: real, p: nat)
    requires p <= |rows| && forall i :: 0 <= i < p ==> UntiedAt(rows, minimumBreak, i)
    ensures At(MirrorRows(rows, mirror), minimumBreak, p) == MirrorSnapshot(At(rows, minimumBreak, p), mirror)
  {
    hide Advanced, Untied;
    if p > 0 {
      MirrorsWhileUntied(rows, minimumBreak, mirror, p - 1);
      assert UntiedAt(rows, minimumBreak, p - 1);
      AdvanceMirrors(At(rows, minimumBreak, p - 1), rows[p - 1], minimumBreak, p - 1, mirror);
    }
  }

  lemma {:induction false} TiedRowShows(rows: seq<SwingRow>, minimumBreak: real, mirror: real, p: nat)
    requires p < |rows| && !UntiedAt(rows, minimumBreak, p)
    ensures exists i :: 0 <= i <= p &&
              OutAt(MirrorRows(rows, mirror), minimumBreak, i).tag != MirrorTag(OutAt(rows, minimumBreak, i).tag)
  {
    if i :| 0 <= i < p && !UntiedAt(rows, minimumBreak, i) {
      TiedRowShows(rows, minimumBreak, mirror, i);
    } else {
      MirrorsWhileUntied(rows, minimumBreak, mirror, p);
      LabelMirrorsIffUntied(At(rows, minimumBreak, p).memory, rows[p], mirror);
      assert OutAt(MirrorRows(rows, mirror), minimumBreak, p).tag != MirrorTag(OutAt(rows, minimumBreak, p).tag);
    }
  }

  /** The mirrored input gives the mirrored output on every row exactly when every
      row of the run is untied. */
  lemma {:induction false} RunMirrorsIffUntied(rows: seq<SwingRow>, minimumBreak: real, mirror: real)
    ensures Run(MirrorRows(rows, mirror), minimumBreak) == MirrorOuts(Run(rows, minimumBreak), mirror)
            <==> UntiedRun(rows, minimumBreak)
  {
    var image := MirrorRows(rows, mirror);
    hide UntiedAt, Written, MirrorOut, MirrorRow, Advanced;
    if UntiedRun(rows, minimumBreak) {
      forall p | 0 <= p < |rows|
        ensures OutAt(image, minimumBreak, p) == MirrorOut(OutAt(rows, minimumBreak, p), mirror)
      {
        OutMirrors(rows, minimumBreak, mirror, p);
      }
    } else {
      var p :| 0 <= p < |rows| && !UntiedAt(rows, minimumBreak, p);
      TiedRowShows(rows, minimumBreak, mirror, p);
      var i :| 0 <= i <= p && OutAt(image, minimumBreak, i).tag != MirrorTag(OutAt(rows, minimumBreak, i).tag);
      MirrorOutTag(OutAt(rows, minimumBreak, i), mirror);
      assert Run(image, minimumBreak)[i].tag != MirrorOuts(Run(rows, minimumBreak), mirror)[i].tag;
    }
  }

  lemma {:induction false} MirrorOutTag(o: OutRow, mirror: real)
    ensures MirrorOut(o, mirror).tag == MirrorTag(o.tag)
  {
  }

  lemma {:induction false} OutMirrors(rows: seq<SwingRow>, minimumBreak: real, mirror: real, p: nat)
    requires p < |rows| && UntiedRun(rows, minimumBreak)
    ensures OutAt(MirrorRows(rows, mirror), minimumBreak, p) == MirrorOut(OutAt(rows, minimumBreak, p), mirror)
  {
    MirrorsWhileUntied(rows, minimumBreak, mirror, p);
    assert UntiedAt(rows, minimumBreak, p);
    WrittenMirrors(At(rows, minimumBreak, p), rows[p], minimumBreak, p, mirror);
    hide Written, MirrorOut, MirrorRow, MirrorSnapshot, Advanced;
  }

  lemma {:induction false} SwingRowsMirror(candles: seq<Candle>, left: nat, right: nat, mirror: real)
    ensures SwingRows(ReflectCandles(candles, mirror), left, right)
            == MirrorRows(SwingRows(candles, left, right), mirror)
  {
    forall p | 0 <= p < |candles|
      ensures SwingRowAt(ReflectCandles(candles, mirror), left, right, p)
              == MirrorRow(SwingRowAt(candles, left, right, p), mirror)
    {
      SwingsReflect(candles, left, right, mirror, p);
    }
  }

  /** The same for the whole pass from candles. */
  lemma {:induction false} CandlesMirrorIffUntied(candles: seq<Candle>, left: nat, right: nat, minimumBreak: real,
                                        mirror: real)
    ensures
      Run(SwingRows(ReflectCandles(candles, mirror), left, right), minimumBreak)
      == MirrorOuts(Run(SwingRows(candles, left, right), minimumBreak), mirror)
      <==> UntiedRun(SwingRows(candles, left, right), minimumBreak)
  {
    SwingRowsMirror(candles, left, right, mirror);
    RunMirrorsIffUntied(SwingRows(candles, left, right), minimumBreak, mirror);
  }

  // ----- A condition on the candles alone -----

  /** No candle is a swing on both sides, and no two swings of a kind share a price. */
  predicate SwingsDiffer(candles: seq<Candle>, left: nat, right: nat) {
    && (forall p :: 0 <= p < |candles| ==>
          !(IsSwingHigh(candles, left, right, p) && IsSwingLow(candles, left, right, p)))
    && (forall p, q :: 0 <= p < q < |candles|
                       && IsSwingHigh(candles, left, right, p) && IsSwingHigh(candles, left, right, q) ==>
          candles[p].high != candles[q].high)
    && forall p, q :: 0 <= p < q < |candles|
                      && IsSwingLow(candles, left, right, p) && IsSwingLow(candles, left, right, q) ==>
         candles[p].low != candles[q].low
  }

  /** The running baselines are prices of earlier swings. */
  predicate BaselinesSeen(m: Memory, rows: seq<SwingRow>, p: nat)
    requires p <= |rows|
  {
    && (m.cycleHigh.Some? ==> exists q :: 0 <= q < p && HighPrice(rows[q]) == m.cycleHigh)
    && (m.cycleLow.Some? ==> exists q :: 0 <= q < p && LowPrice(rows[q]) == m.cycleLow)
  }

  lemma {:induction false} BaselinesRow(s: Snapshot, rows: seq<SwingRow>, minimumBreak: real, p: nat)
    requires p < |rows| && BaselinesSeen(s.memory, rows, p)
    ensures BaselinesSeen(Advanced(s, rows[p], minimumBreak, p).next.memory, rows, p + 1)
  {
    var m, next := s.memory, Advanced(s, rows[p], minimumBreak, p).next.memory;
    assert next.cycleHigh in {None, Latest(m.cycleHigh, HighPrice(rows[p]))};
    assert next.cycleLow in {None, Latest(m.cycleLow, LowPrice(rows[p]))};
    hide Advanced, HighPrice, LowPrice;
    if next.cycleHigh.Some? && HighPrice(rows[p]).None? {
      var q :| 0 <= q < p && HighPrice(rows[q]) == m.cycleHigh;
      assert HighPrice(rows[q]) == next.cycleHigh;
    }
    if next.cycleLow.Some? && LowPrice(rows[p]).None? {
      var q :| 0 <= q < p && LowPrice(rows[q]) == m.cycleLow;
      assert LowPrice(rows[q]) == next.cycleLow;
    }
  }

  lemma {:induction false} BaselinesAreSeen(rows: seq<SwingRow>, minimumBreak: real, p: nat)
    requires p <= |rows|
    ensures BaselinesSeen(At(rows, minimumBreak, p).memory, rows, p)
  {
    if p > 0 {
      hide Advanced;
      BaselinesAreSeen(rows, minimumBreak, p - 1);
      BaselinesRow(At(rows, minimumBreak, p - 1), rows, minimumBreak, p - 1);
    }
  }

  lemma {:induction false} SwingPrices(candles: seq<Candle>, left: nat, right: nat, p: nat)
    requires p < |candles|
    ensures
      var row := SwingRows(candles, left, right)[p];
      && (HighPrice(row) == if IsSwingHigh(candles, left, right, p) then Some(candles[p].high) else None)
      && (LowPrice(row) == if IsSwingLow(candles, left, right, p) then Some(candles[p].low) else None)
  {
    hide IsSwingHigh, IsSwingLow;
  }

  /** A swing's price is none of the baselines seen before it. */
  lemma {:induction false} PriceIsNew(candles: seq<Candle>, left: nat, right: nat, p: nat, m: Memory)
    requires p < |candles| && SwingsDiffer(candles, left, right) && BaselinesSeen(m, SwingRows(candles, left, right), p)
    ensures
      var row := SwingRows(candles, left, right)[p];
      && (HighPrice(row).Some? ==> HighPrice(row) != m.cycleHigh)
      && (LowPrice(row).Some? ==> LowPrice(row) != m.cycleLow)
      && !(HighPrice(row).Some? && LowPrice(row).Some?)
  {
    hide IsSwingHigh, IsSwingLow, HighPrice, LowPrice, SwingRowAt;
    var rows := SwingRows(candles, left, right);
    SwingPrices(candles, left, right, p);
    if m.cycleHigh.Some? {
      var q :| 0 <= q < p && HighPrice(rows[q]) == m.cycleHigh;
      SwingPrices(candles, left, right, q);
    }
    if m.cycleLow.Some? {
      var q :| 0 <= q < p && LowPrice(rows[q]) == m.cycleLow;
      SwingPrices(candles, left, right, q);
    }
  }

  lemma {:induction false} NewPriceIsUntied(m: Memory, row: SwingRow)
    requires (HighPrice(row).Some? ==> HighPrice(row) != m.cycleHigh)
             && (LowPrice(row).Some? ==> LowPrice(row) != m.cycleLow)
    requires !(HighPrice(row).Some? && LowPrice(row).Some?)
    ensures Untied(m, row)
  {
    hide HighPrice, LowPrice;
  }

  lemma {:induction false} DifferentSwingsAreUntied(candles: seq<Candle>, left: nat, right: nat, minimumBreak: real,
                                                    p: nat)
    requires p < |candles| && SwingsDiffer(candles, left, right)
    ensures UntiedAt(SwingRows(candles, left, right), minimumBreak, p)
  {
    hide At, SwingsDiffer, BaselinesSeen, Untied, HighPrice, LowPrice, SwingRowAt;
    var rows := SwingRows(candles, left, right);
    BaselinesAreSeen(rows, minimumBreak, p);
    PriceIsNew(candles, left, right, p, At(rows, minimumBreak, p).memory);
    NewPriceIsUntied(At(rows, minimumBreak, p).memory, rows[p]);
  }

  /** Such a series can be mirrored, whatever the minimum break. */
  lemma {:induction false} DifferentSwingsMirror(candles: seq<Candle>, left: nat, right: nat, minimumBreak: real,
                                                 mirror: real)
    requires SwingsDiffer(candles, left, right)
    ensures Run(SwingRows(ReflectCandles(candles, mirror), left, right), minimumBreak)
            == MirrorOuts(Run(SwingRows(candles, left, right), minimumBreak), mirror)
  {
    hide SwingsDiffer, UntiedAt, Run, MirrorOuts, ReflectCandles;
    forall p | 0 <= p < |SwingRows(candles, left, right)|
      ensures UntiedAt(SwingRows(candles, left, right), minimumBreak, p) {
      DifferentSwingsAreUntied(candles, left, right, minimumBreak, p);
    }
    CandlesMirrorIffUntied(candles, left, right, minimumBreak, mirror);
  }

  // ----- A series that cannot be mirrored -----

  function Bar(time: int, high: real, low: real): Candle { Candle(time, low, high, low, high, Some(1.0)) }

  /** Two equal swing highs, on rows 1 and 3. */
  const TIED := [Bar(0, 3.0, 1.0), Bar(1, 4.0, 2.0), Bar(2, 3.0, 1.0), Bar(3, 4.0, 2.0), Bar(4, 3.0, 1.0)]

  lemma {:induction false} TiedFlags(p: nat)
    requires p < 5
    ensures IsSwingHigh(TIED, 1, 1, p) <==> p == 1 || p == 3
    ensures IsSwingLow(TIED, 1, 1, p) <==> p == 2
  {
    if 1 <= p < 4 {
      Peak(TIED, p);
      NoPeak(TIED, p, p - 1);
    }
  }

  lemma {:induction false} TiedRowMemory(p: nat)
    requires p <= 3
    ensures
      var s := At(SwingRows(TIED, 1, 1), 0.1, p);
      && s.cycle == Undecided
      && s.memory.cycleHigh == (if p < 2 then None else Some(4.0))
      && s.memory.cycleLow == (if p < 3 then None else Some(1.0))
  {
    hide IsSwingHigh, IsSwingLow;
    if p > 0 {
      TiedFlags(p - 1);
      TiedRowMemory(p - 1);
    }
  }

  /** The second of two equal highs is an LH, whose mirror is an HL; but the second
      of two equal lows in the image is an LL. */
  lemma {:induction false} TiedSeriesDoesNotMirror(mirror: real)
    ensures forall c :: c in TIED ==> c.low <= c.open <= c.high && c.low <= c.close <= c.high
    ensures Run(SwingRows(ReflectCandles(TIED, mirror), 1, 1), 0.1)
            != MirrorOuts(Run(SwingRows(TIED, 1, 1), 0.1), mirror)
  {
    hide At, Run, MirrorOuts, ReflectCandles, IsSwingHigh, IsSwingLow;
    TiedRowMemory(3);
    TiedFlags(3);
    SwingPrices(TIED, 1, 1, 3);
    assert !UntiedAt(SwingRows(TIED, 1, 1), 0.1, 3);
    CandlesMirrorIffUntied(TIED, 1, 1, 0.1, mirror);
  }
}
