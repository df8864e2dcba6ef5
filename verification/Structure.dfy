/** The market-structure cycle as a one-sided machine.

    A cycle has a direction. Everything the engine does in a bullish cycle it
    does in a bearish one with highs and lows exchanged, so the machine below is
    written once, for a direction `d`, in terms of two roles a swing label can
    play: an impulse extends the cycle (HH when bullish, LL when bearish) and a
    pullback defends it (HL when bullish, LH when bearish).

    `StructureMachine.DetectStructureState` is the two-sided loop of the engine;
    it is proved to produce exactly the rows this machine produces. */
module Structure {
  import opened Domain

  /** One input row; absent cells are None. */
  datatype SwingRow = SwingRow(
    high: Option<real>, low: Option<real>, close: Option<real>, atr: Option<real>,
    swingHigh: bool, swingLow: bool,
    swingHighPrice: Option<real>, swingLowPrice: Option<real>)

  /** Swing prices remembered across rows: the last detected ones, the baseline
      of the current cycle, and the last ones that received a label. */
  datatype Memory = Memory(
    detectedHigh: Option<real>, detectedLow: Option<real>,
    cycleHigh: Option<real>, cycleLow: Option<real>,
    latestHigh: Option<real>, latestLow: Option<real>)

  datatype Level = Level(price: real, source: LevelSource)

  /** `anchor` is the protected level, `candidate` the last pullback, `target`
      the level whose break is a BOS and `spent` the last target broken. While a
      cycle is challenged by an MSS, `origin` is the MSS row and `pullback` the
      last opposite pullback seen since. */
  datatype Cycle =
    | Undecided
    | Trending(dir: Direction, anchor: Option<Level>, candidate: Option<real>,
               target: Option<real>, spent: Option<real>)
    | Challenged(dir: Direction, level: Level, origin: nat, candidate: Option<real>,
                 target: Option<real>, spent: Option<real>, pullback: Option<real>)

  datatype Snapshot = Snapshot(cycle: Cycle, memory: Memory)

  datatype Event = Event(
    kind: EventKind, dir: Direction, level: real,
    distance: Option<real>, invalidatedOrigin: Option<nat>)

  /** Value, status and source columns of one protected level. */
  datatype Guard = Guard(level: Option<real>, status: Option<LevelStatus>, source: Option<LevelSource>)

  const NO_GUARD := Guard(None, None, None)

  /** One row of the columns the engine writes. */
  datatype OutRow = OutRow(
    tag: Option<Label>,
    trend: Option<Direction>, state: StructureState,
    event: Option<EventKind>, direction: Option<Direction>,
    latestHigh: Option<real>, latestLow: Option<real>,
    protectedHigh: Guard, protectedLow: Guard,
    brokenLevel: Option<real>, breakDistance: Option<real>, requiredDistance: Option<real>,
    confirmation: Option<ConfirmationStep>,
    originLevel: Option<real>, originIndex: Option<nat>, invalidatedOrigin: Option<nat>,
    trendBefore: Option<Direction>, trendAfter: Option<Direction>,
    stateBefore: StructureState, stateAfter: StructureState)

  // ----- Reading a row -----

  /** A dedicated swing-price cell wins over the candle's own extreme. */
  function SwingPrice(flag: bool, preferred: Option<real>, fallback: Option<real>): Option<real> {
    if !flag then None else if preferred.Some? then preferred else fallback
  }

  function HighPrice(row: SwingRow): Option<real> {
    SwingPrice(row.swingHigh, row.swingHighPrice, row.high)
  }

  function LowPrice(row: SwingRow): Option<real> {
    SwingPrice(row.swingLow, row.swingLowPrice, row.low)
  }

  function HighLabel(baseline: Option<real>, price: Option<real>): Option<Label> {
    if baseline.None? || price.None? then None
    else if price.value > baseline.value then Some(HH) else Some(LH)
  }

  function LowLabel(baseline: Option<real>, price: Option<real>): Option<Label> {
    if baseline.None? || price.None? then None
    else if price.value > baseline.value then Some(HL) else Some(LL)
  }

  /** On a candle that is both a swing high and a swing low, the low's label wins. */
  function LabelOf(m: Memory, row: SwingRow): Option<Label> {
    var low := LowLabel(m.cycleLow, LowPrice(row));
    if low.Some? then low else HighLabel(m.cycleHigh, HighPrice(row))
  }

  function Latest(previous: Option<real>, next: Option<real>): Option<real> {
    if next.Some? then next else previous
  }

  predicate IsHighLabel(l: Label) { l == HH || l == LH }

  /** The price the label speaks of. */
  function LabelPrice(tag: Option<Label>, row: SwingRow): Option<real> {
    if tag.None? then None
    else if IsHighLabel(tag.value) then HighPrice(row) else LowPrice(row)
  }

  function Remember(m: Memory, row: SwingRow): Memory {
    var tag := LabelOf(m, row);
    var price := LabelPrice(tag, row);
    Memory(
      Latest(m.detectedHigh, HighPrice(row)), Latest(m.detectedLow, LowPrice(row)),
      Latest(m.cycleHigh, HighPrice(row)), Latest(m.cycleLow, LowPrice(row)),
      if tag.Some? && IsHighLabel(tag.value) then price else m.latestHigh,
      if tag.Some? && !IsHighLabel(tag.value) then price else m.latestLow)
  }

  // ----- Roles -----

  function Impulse(d: Direction): Label { if d == Bullish then HH else LL }

  function Pullback(d: Direction): Label { if d == Bullish then HL else LH }

  function PullbackSource(d: Direction): LevelSource { if d == Bullish then FromHL else FromLH }

  /** The last detected swing on the side that defends direction `d`. */
  function Defence(m: Memory, d: Direction): Option<real> {
    if d == Bullish then m.detectedLow else m.detectedHigh
  }

  function Reseed(m: Memory, d: Direction): Option<Level> {
    var price := Defence(m, d);
    if price.None? then None else Some(Level(price.value, FromLatestSwing))
  }

  /** How far `to` lies beyond `from` in direction `d`. */
  function Beyond(d: Direction, from: real, to: real): real {
    if d == Bullish then to - from else from - to
  }

  // ----- Swing-driven transitions -----

  datatype Response = Response(cycle: Cycle, event: Option<Event>, confirmation: Option<ConfirmationStep>)

  function Begin(m: Memory, tag: Label, price: real): Cycle {
    var d := if tag == HH || tag == HL then Bullish else Bearish;
    if tag == Impulse(d) then Trending(d, Reseed(m, d), None, Some(price), None)
    else Trending(d, Some(Level(price, PullbackSource(d))), Some(price), None, None)
  }

  function RespondTrending(c: Cycle, tag: Label, price: real): Cycle
    requires c.Trending?
  {
    if tag == Impulse(c.dir) then Trending(c.dir, c.anchor, c.candidate, Some(price), c.spent)
    else if tag == Pullback(c.dir) then
      Trending(c.dir, Some(Level(price, PullbackSource(c.dir))), Some(price), c.target, c.spent)
    else c
  }

  function PullbackSeen(d: Direction): ConfirmationStep {
    if d == Bullish then HLConfirmed else LHConfirmed
  }

  function SequenceDone(d: Direction): ConfirmationStep {
    if d == Bullish then HLToHHConfirmed else LHToLLConfirmed
  }

  /** A challenge is withdrawn by an impulse of the challenged cycle, and carried
      by an impulse of the opposite direction once its pullback has been seen. */
  function RespondChallenged(c: Cycle, m: Memory, tag: Label, price: real): Response
    requires c.Challenged?
  {
    var d, e := c.dir, Opposite(c.dir);
    if tag == Impulse(d) then
      Response(Trending(d, Reseed(m, d), c.candidate, Some(price), c.spent),
               Some(Event(MSSInvalidated, d, c.level.price, None, Some(c.origin))), None)
    else if tag == Pullback(d) then 
      Response(Challenged(d, c.level, c.origin, Some(price), c.target, c.spent, c.pullback), None, None)
    else if tag == Pullback(e) then
      Response(Challenged(d, c.level, c.origin, c.candidate, c.target, c.spent, Some(price)), None,
               Some(PullbackSeen(e)))
    else if c.pullback.None? then Response(c, None, None)
    else
      Response(Trending(e, Some(Level(c.pullback.value, PullbackSource(e))), c.pullback, Some(price), None),
               Some(Event(CHoCH, e, c.level.price, None, None)), Some(SequenceDone(e)))
  }

  function Respond(c: Cycle, m: Memory, tag: Option<Label>, price: Option<real>): Response {
    if tag.None? || price.None? then Response(c, None, None)
    else match c
      case Undecided => Response(Begin(m, tag.value, price.value), None, None)
      case Trending(_, _, _, _, _) => Response(RespondTrending(c, tag.value, price.value), None, None)
      case Challenged(_, _, _, _, _, _, _) => RespondChallenged(c, m, tag.value, price.value)
  }

  // ----- Close-driven transitions -----

  datatype Outcome = Outcome(cycle: Cycle, event: Option<Event>)

  /** A BOS moves the protected level to the candidate and keeps its source. */
  function Advance(anchor: Option<Level>, candidate: Option<real>): Option<Level> {
    if anchor.Some? && candidate.Some? then Some(anchor.value.(price := candidate.value)) else anchor
  }

  function Break(c: Cycle, close: real, required: real, position: nat): Outcome {
    if !c.Trending? then Outcome(c, None)
    else if c.anchor.Some? && Beyond(Opposite(c.dir), c.anchor.value.price, close) >= required then
      var against := Opposite(c.dir);
      Outcome(Challenged(c.dir, c.anchor.value, position, c.candidate, c.target, c.spent, None),
              Some(Event(MSS, against, c.anchor.value.price,
                         Some(Beyond(against, c.anchor.value.price, close)), None)))
    else if c.target.Some? && c.spent != c.target && Beyond(c.dir, c.target.value, close) >= required then
      Outcome(Trending(c.dir, Advance(c.anchor, c.candidate), c.candidate, c.target, c.target),
              Some(Event(BOS, c.dir, c.target.value,
                         Some(Beyond(c.dir, c.target.value, close)), None)))
    else Outcome(c, None)
  }

  // ----- One row -----

  function TrendOf(c: Cycle): Option<Direction> {
    if c.Undecided? then None else Some(c.dir)
  }

  function StateOf(c: Cycle): StructureState {
    match c
    case Undecided => NeutralState
    case Trending(d, _, _, _, _) => if d == Bullish then BullishState else BearishState
    case Challenged(d, _, _, _, _, _, _) => if d == Bullish then MssBearish else MssBullish
  }

  /** The protected level on the side that defends direction `d`. */
  function GuardOf(c: Cycle, d: Direction): Guard {
    match c
    case Undecided => NO_GUARD
    case Trending(dir, anchor, _, _, _) =>
      if dir == d && anchor.Some? then Guard(Some(anchor.value.price), Some(Active), Some(anchor.value.source))
      else NO_GUARD
    case Challenged(dir, level, _, _, _, _, _) =>
      if dir == d then Guard(Some(level.price), Some(Broken), Some(level.source)) else NO_GUARD
  }

  function Threshold(atr: real, minimumBreak: real): real { atr * minimumBreak }

  function Required(row: SwingRow, minimumBreak: real): Option<real> {
    if row.close.Some? && row.atr.Some? then Some(Threshold(row.atr.value, minimumBreak)) else None
  }

  datatype Move = Move(next: Snapshot, event: Option<Event>, confirmation: Option<ConfirmationStep>)

  /** A CHoCH starts a fresh baseline for the rows that follow. */
  function ForgetCycle(m: Memory): Memory {
    m.(cycleHigh := None, cycleLow := None)
  }

  /** What the row leaves behind, once its swings have been answered. */
  function Decide(swing: Response, memory: Memory, row: SwingRow, minimumBreak: real, position: nat): Move {
    var required := Required(row, minimumBreak);
    if swing.event.Some? then
      Move(Snapshot(swing.cycle, if swing.event.value.kind == CHoCH then ForgetCycle(memory) else memory),
           swing.event, swing.confirmation)
    else if required.None? then Move(Snapshot(swing.cycle, memory), None, swing.confirmation)
    else
      var outcome := Break(swing.cycle, row.close.value, required.value, position);
      Move(Snapshot(outcome.cycle, memory), outcome.event, swing.confirmation)
  }

  function SwingResponse(s: Snapshot, row: SwingRow): Response {
    var tag := LabelOf(s.memory, row);
    Respond(s.cycle, Remember(s.memory, row), tag, LabelPrice(tag, row))
  }

  function Advanced(s: Snapshot, row: SwingRow, minimumBreak: real, position: nat): Move {
    Decide(SwingResponse(s, row), Remember(s.memory, row), row, minimumBreak, position)
  }

  /** The cells written for a row, from the cycle before it and the move it made. */
  function Cells(before: Cycle, tag: Option<Label>, move: Move, required: Option<real>): OutRow {
    var next := move.next;
    var e := move.event;
    OutRow(
      tag,
      TrendOf(next.cycle), StateOf(next.cycle),
      if e.Some? then Some(e.value.kind) else None,
      if e.Some? then Some(e.value.dir) else None,
      next.memory.latestHigh, next.memory.latestLow,
      GuardOf(next.cycle, Bearish), GuardOf(next.cycle, Bullish),
      if e.Some? then Some(e.value.level) else None,
      if e.Some? then e.value.distance else None,
      if e.Some? then required else None,
      move.confirmation,
      if next.cycle.Challenged? then Some(next.cycle.level.price) else None,
      if next.cycle.Challenged? then Some(next.cycle.origin) else None,
      if e.Some? then e.value.invalidatedOrigin else None,
      TrendOf(before), TrendOf(next.cycle),
      StateOf(before), StateOf(next.cycle))
  }

  function Written(s: Snapshot, row: SwingRow, minimumBreak: real, position: nat): OutRow {
    Cells(s.cycle, LabelOf(s.memory, row), Advanced(s, row, minimumBreak, position), Required(row, minimumBreak))
  }

  // ----- Whole runs -----

  const START := Snapshot(Undecided, Memory(None, None, None, None, None, None))

  /** The machine after the first `p` rows. */
  function At(rows: seq<SwingRow>, minimumBreak: real, p: nat): Snapshot
    requires p <= |rows|
  {
    if p == 0 then START
    else Advanced(At(rows, minimumBreak, p - 1), rows[p - 1], minimumBreak, p - 1).next
  }

  function MoveAt(rows: seq<SwingRow>, minimumBreak: real, p: nat): Move
    requires p < |rows|
  {
    Advanced(At(rows, minimumBreak, p), rows[p], minimumBreak, p)
  }

  function OutAt(rows: seq<SwingRow>, minimumBreak: real, p: nat): OutRow
    requires p < |rows|
  {
    Written(At(rows, minimumBreak, p), rows[p], minimumBreak, p)
  }

  function Run(rows: seq<SwingRow>, minimumBreak: real): seq<OutRow> {
    seq(|rows|, p requires 0 <= p < |rows| => OutAt(rows, minimumBreak, p))
  }

  // ----- What every reachable snapshot satisfies -----

  /** A protected level taken from a pullback is the candidate; a candidate never
      exists without a protected level; a level can always be reseeded. */
  predicate Sound(s: Snapshot, position: nat) {
    match s.cycle
    case Undecided => true
    case Trending(d, anchor, candidate, _, _) =>
      && (candidate.Some? ==> anchor.Some?)
      && (anchor.Some? ==>
            && Defence(s.memory, d).Some?
            && anchor.value.source in {PullbackSource(d), FromLatestSwing}
            && (anchor.value.source == PullbackSource(d) ==> candidate == Some(anchor.value.price)))
    case Challenged(d, level, origin, candidate, _, _, pullback) =>
      && Defence(s.memory, d).Some?
      && level.source in {PullbackSource(d), FromLatestSwing}
      && origin < position
      && (pullback.Some? ==> Defence(s.memory, Opposite(d)).Some?)
  }

  /** Swings already detected stay detected, and a labelled row has detected its own. */
  lemma {:induction false} RememberKeepsDefence(m: Memory, row: SwingRow, d: Direction)
    ensures Defence(m, d).Some? ==> Defence(Remember(m, row), d).Some?
    ensures LabelOf(m, row) == Some(Pullback(d)) ==> Defence(Remember(m, row), d) == LabelPrice(LabelOf(m, row), row)
    ensures LabelOf(m, row).Some? ==> LabelPrice(LabelOf(m, row), row).Some?
  {
  }

  lemma {:induction false} RespondKeepsSound(s: Snapshot, row: SwingRow, position: nat)
    requires Sound(s, position)
    ensures Sound(Snapshot(SwingResponse(s, row).cycle, Remember(s.memory, row)), position)
  {
    RememberKeepsDefence(s.memory, row, Bullish);
    RememberKeepsDefence(s.memory, row, Bearish);
  }

  lemma {:induction false} DecideKeepsSound(swing: Response, memory: Memory, row: SwingRow, minimumBreak: real,
                                        position: nat)
    requires Sound(Snapshot(swing.cycle, memory), position)
    ensures Sound(Decide(swing, memory, row, minimumBreak, position).next, position + 1)
  {
  }

  lemma {:induction false} StepKeepsSound(s: Snapshot, row: SwingRow, minimumBreak: real, position: nat)
    requires Sound(s, position)
    ensures Sound(Advanced(s, row, minimumBreak, position).next, position + 1)
  {
    RespondKeepsSound(s, row, position);
    DecideKeepsSound(SwingResponse(s, row), Remember(s.memory, row), row, minimumBreak, position);
  }

  lemma {:induction false} RunsAreSound(rows: seq<SwingRow>, minimumBreak: real, p: nat)
    requires p <= |rows|
    ensures Sound(At(rows, minimumBreak, p), p)
  {
    if p > 0 {
      RunsAreSound(rows, minimumBreak, p - 1);
      StepKeepsSound(At(rows, minimumBreak, p - 1), rows[p - 1], minimumBreak, p - 1);
    }
  }
}
