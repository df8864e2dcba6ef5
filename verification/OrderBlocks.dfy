/** Order Blocks as values: their lifecycle transitions, and one row of the engine
    as a function on the list of blocks. */
module OrderBlocks {
  import opened Domain

  datatype BlockStatus = ActiveBlock | MitigatedBlock | InvalidatedBlock | ExpiredBlock

  datatype Standing = Provisional | Confirmed

  datatype Reason = PricePenetration | MssInvalidation

  /** The text `STR_<event>_<position>`. */
  datatype SourceId = SourceId(kind: EventKind, row: nat)

  /** What a block is from its creation on. */
  datatype Shape = Shape(
    id: nat, dir: Direction, created: nat, candle: nat,
    high: real, low: real, open: real, close: real, proximal: real, distal: real,
    source: SourceId, brokenLevel: Option<real>,
    displacement: real, displacementPips: real, atr: real)

  /** The proximal edge is the one price comes from. */
  predicate Oriented(s: Shape) {
    if s.dir == Bullish then s.proximal == s.high && s.distal == s.low else s.proximal == s.low && s.distal == s.high
  }

  /** What happens to it. */
  datatype Life = Life(
    status: BlockStatus,
    standing: Standing, confirmedBy: Option<SourceId>, confirmedIndex: Option<nat>,
    mitigated: bool, mitigatedIndex: Option<nat>, mitigationPrice: Option<real>,
    mitigationDepth: Option<real>, mitigationPercentage: Option<real>,
    invalidated: bool, invalidatedIndex: Option<nat>, invalidationPrice: Option<real>, reason: Option<Reason>,
    expired: bool, expiredIndex: Option<nat>, touches: nat)

  datatype Block = Block(shape: Shape, life: Life)

  function Newborn(standing: Standing): Life {
    Life(ActiveBlock, standing, None, None, false, None, None, None, None, false, None, None, None, false, None, 0)
  }

  predicate IsActive(l: Life) {
    l.status == ActiveBlock && !l.mitigated && !l.invalidated && !l.expired
  }

  function Abs(x: real): real { if x < 0.0 then -x else x }

  function MinReal(x: real, y: real): real { if x < y then x else y }

  function MaxReal(x: real, y: real): real { if x < y then y else x }

  function RangeSize(s: Shape): real { Abs(s.high - s.low) }

  /** How deep into the block a price lies, kept within the block. */
  function Depth(s: Shape, price: real): real {
    if RangeSize(s) <= 0.0 then 0.0
    else MaxReal(0.0, MinReal(if s.dir == Bullish then s.high - price else price - s.low, RangeSize(s)))
  }

  function Percentage(s: Shape, price: real): real {
    if RangeSize(s) <= 0.0 then 0.0 else Depth(s, price) / RangeSize(s) * 100.0
  }

  function MarkMitigated(b: Block, index: nat, price: real): Block {
    b.(life := b.life.(
      status := MitigatedBlock, mitigated := true, mitigatedIndex := Some(index), mitigationPrice := Some(price),
      touches := b.life.touches + 1,
      mitigationDepth := Some(Depth(b.shape, price)), mitigationPercentage := Some(Percentage(b.shape, price))))
  }

  function MarkInvalidated(b: Block, index: nat, price: Option<real>, reason: Reason): Block {
    b.(life := b.life.(
      status := InvalidatedBlock, invalidated := true, invalidatedIndex := Some(index),
      invalidationPrice := price, reason := Some(reason)))
  }

  function MarkConfirmed(b: Block, index: nat, event: SourceId): Block {
    b.(life := b.life.(standing := Confirmed, confirmedBy := Some(event), confirmedIndex := Some(index)))
  }

  function MarkExpired(b: Block, index: nat): Block {
    b.(life := b.life.(status := ExpiredBlock, expired := true, expiredIndex := Some(index)))
  }

  // ----- Rows and settings -----

  /** `sweep` is the direction of a liquidity sweep recorded on the row. */
  datatype ObRow = ObRow(
    open: Option<real>, high: Option<real>, low: Option<real>, close: Option<real>, atr: Option<real>,
    event: Option<EventKind>, dir: Option<Direction>, brokenLevel: Option<real>,
    invalidatedOrigin: Option<nat>, sweep: Option<Direction>)

  datatype Settings = Settings(
    enabled: set<EventKind>, lookback: nat, minDisplacement: real, minBody: real,
    requireSweep: bool, confirmationPips: real, pip: Positive, maxAge: Option<nat>)

  /** What the engine demands of its options. */
  predicate ValidSettings(cfg: Settings) {
    && cfg.enabled != {} && cfg.enabled <= {BOS, MSS, CHoCH}
    && cfg.lookback >= 1 && cfg.minDisplacement >= 0.0 && 0.0 <= cfg.minBody <= 1.0
    && cfg.confirmationPips >= 0.0
    && (cfg.maxAge.Some? ==> cfg.maxAge.value >= 1)
  }

  function Clearance(cfg: Settings): real { cfg.confirmationPips * cfg.pip }

  predicate HasPrices(row: ObRow) { row.high.Some? && row.low.Some? && row.close.Some? }

  // ----- 1. Price -----

  predicate Pierced(s: Shape, row: ObRow, clearance: real)
    requires HasPrices(row)
  {
    if s.dir == Bullish then row.close.value < s.distal - clearance else row.close.value > s.distal + clearance
  }

  predicate Touched(s: Shape, row: ObRow)
    requires HasPrices(row)
  {
    row.low.value <= s.high && row.high.value >= s.low
  }

  /** The first price of the row inside the block, coming from outside. */
  function EntryPrice(s: Shape, row: ObRow): real
    requires HasPrices(row)
  {
    if s.dir == Bullish then MinReal(MaxReal(row.low.value, s.low), s.high)
    else MaxReal(MinReal(row.high.value, s.high), s.low)
  }

  function Priced(b: Block, row: ObRow, position: nat, clearance: real): Block {
    if !HasPrices(row) || !IsActive(b.life) || position <= b.shape.created then b
    else if Pierced(b.shape, row, clearance) then MarkInvalidated(b, position, row.close, PricePenetration)
    else if Touched(b.shape, row) then MarkMitigated(b, position, EntryPrice(b.shape, row))
    else b
  }

  // ----- 1b. Cascade -----

  predicate Cascades(s: Shape, row: ObRow) {
    row.event == Some(MSSInvalidated) && row.invalidatedOrigin.Some?
    && s.source == SourceId(MSS, row.invalidatedOrigin.value)
  }

  function Cascaded(b: Block, row: ObRow, position: nat): Block {
    if Cascades(b.shape, row) && b.life.status == ActiveBlock
    then MarkInvalidated(b, position, row.close, MssInvalidation) else b
  }

  // ----- 2. Expiry -----

  function Aged(b: Block, position: nat, maxAge: Option<nat>): Block {
    if maxAge.Some? && IsActive(b.life) && position - b.shape.created >= maxAge.value
    then MarkExpired(b, position) else b
  }

  // ----- The same on every block of a list -----

  function PricedAll(blocks: seq<Block>, row: ObRow, position: nat, clearance: real): seq<Block> {
    seq(|blocks|, i requires 0 <= i < |blocks| => Priced(blocks[i], row, position, clearance))
  }

  function CascadedAll(blocks: seq<Block>, row: ObRow, position: nat): seq<Block> {
    seq(|blocks|, i requires 0 <= i < |blocks| => Cascaded(blocks[i], row, position))
  }

  function AgedAll(blocks: seq<Block>, position: nat, maxAge: Option<nat>): seq<Block> {
    seq(|blocks|, i requires 0 <= i < |blocks| => Aged(blocks[i], position, maxAge))
  }

  // ----- 1c. Promotion -----

  predicate IsProvisionalOf(b: Block, pending: nat) {
    b.shape.source == SourceId(MSS, pending) && b.life.standing == Provisional
  }

  /** The first block still provisional for the pending MSS. */
  function FindProvisional(blocks: seq<Block>, pending: nat, from: nat): (found: Option<nat>)
    requires from <= |blocks|
    ensures found.Some? ==> from <= found.value < |blocks| && IsProvisionalOf(blocks[found.value], pending)
    ensures found.Some? ==> forall i :: from <= i < found.value ==> !IsProvisionalOf(blocks[i], pending)
    ensures found.None? ==> forall i :: from <= i < |blocks| ==> !IsProvisionalOf(blocks[i], pending)
    decreases |blocks| - from
  {
    if from == |blocks| then None
    else if IsProvisionalOf(blocks[from], pending) then Some(from)
    else FindProvisional(blocks, pending, from + 1)
  }

  function Promoted(blocks: seq<Block>, row: ObRow, position: nat, pending: Option<nat>): Option<nat> {
    if row.event == Some(CHoCH) && pending.Some? then FindProvisional(blocks, pending.value, 0) else None
  }

  function Promote(blocks: seq<Block>, who: Option<nat>, position: nat): seq<Block>
    requires who.Some? ==> who.value < |blocks|
  {
    if who.None? then blocks
    else blocks[who.value := MarkConfirmed(blocks[who.value], position, SourceId(CHoCH, position))]
  }

  // ----- 3. Creation -----

  /** A candle of the colour opposite to `d`. */
  predicate Opposes(row: ObRow, d: Direction) {
    row.open.Some? && row.close.Some?
    && if d == Bullish then row.close.value < row.open.value else row.close.value > row.open.value
  }

  /** The last opposing candle in `[from, end)`. */
  function LastOpposing(rows: seq<ObRow>, d: Direction, from: nat, end: nat): (found: Option<nat>)
    requires from <= end <= |rows|
    ensures found.Some? ==> from <= found.value < end && Opposes(rows[found.value], d)
    ensures found.Some? ==> forall i :: found.value < i < end ==> !Opposes(rows[i], d)
    ensures found.None? ==> forall i :: from <= i < end ==> !Opposes(rows[i], d)
    decreases end - from
  {
    if from == end then None
    else if Opposes(rows[end - 1], d) then Some(end - 1)
    else LastOpposing(rows, d, from, end - 1)
  }

  function SourceCandle(rows: seq<ObRow>, position: nat, d: Direction, lookback: nat): Option<nat>
    requires position <= |rows|
  {
    LastOpposing(rows, d, if position < lookback then 0 else position - lookback, position)
  }

  predicate SweptBetween(rows: seq<ObRow>, from: nat, to: nat, d: Direction)
    requires to < |rows|
  {
    exists i :: from <= i <= to && rows[i].sweep == Some(d)
  }

  /** The event candle moves strongly in the event's direction. */
  predicate StrongBody(row: ObRow, d: Direction, minBody: real) {
    && row.open.Some? && row.high.Some? && row.low.Some? && row.close.Some?
    && (if d == Bullish then row.close.value > row.open.value else row.close.value < row.open.value)
    && BodyRatio(row.open.value, row.high.value, row.low.value, row.close.value) >= minBody
  }

  function BodyRatio(open: real, high: real, low: real, close: real): real {
    if high - low > 0.0 then Abs(close - open) / (high - low) else 0.0
  }

  function Displacement(source: ObRow, close: real, d: Direction): real
    requires source.high.Some? && source.low.Some?
  {
    if d == Bullish then close - source.low.value else source.high.value - close
  }

  predicate Eligible(row: ObRow, cfg: Settings) {
    row.event.Some? && row.event.value in cfg.enabled && row.dir.Some?
  }

  /** The block that row `position` creates, if it passes every filter. */
  function Born(rows: seq<ObRow>, position: nat, cfg: Settings, id: nat): Option<Block>
    requires position < |rows|
  {
    var row := rows[position];
    if !Eligible(row, cfg) || position == 0 || row.atr.None? || row.atr.value <= 0.0
       || !StrongBody(row, row.dir.value, cfg.minBody)
    then None
    else
      var d := row.dir.value;
      var at := SourceCandle(rows, position, d, cfg.lookback);
      if at.None? then None
      else
        var source := rows[at.value];
        if source.high.None? || source.low.None? then None
        else
          var distance := Displacement(source, row.close.value, d);
          if distance < row.atr.value * cfg.minDisplacement
             || (cfg.requireSweep && !SweptBetween(rows, at.value, position, d))
          then None
          else Some(Block(
            Shape(id, d, position, at.value,
                  source.high.value, source.low.value, source.open.value, source.close.value,
                  if d == Bullish then source.high.value else source.low.value,
                  if d == Bullish then source.low.value else source.high.value,
                  SourceId(row.event.value, position), row.brokenLevel,
                  distance, distance / cfg.pip, row.atr.value),
            Newborn(if row.event == Some(MSS) then Provisional else Confirmed)))
  }

  // ----- Events of a row -----

  datatype ObEventKind = BlockCreated | BlockMitigated | BlockInvalidated | BlockConfirmed

  datatype ObEvent = ObEvent(kind: ObEventKind, row: nat, dir: Direction, price: Option<real>,
                             block: Shape, percentage: Option<real>)

  /** What a block's passage from `before` to `after` on this row announces. */
  function Announce(before: Block, after: Block, position: nat): seq<ObEvent> {
    if before.life.status == after.life.status then []
    else if after.life.invalidated then
      [ObEvent(BlockInvalidated, position, Opposite(after.shape.dir), after.life.invalidationPrice, after.shape, None)]
    else if after.life.mitigated then
      [ObEvent(BlockMitigated, position, after.shape.dir, after.life.mitigationPrice, after.shape,
               after.life.mitigationPercentage)]
    else []
  }

  function AnnounceAll(before: seq<Block>, after: seq<Block>, position: nat, n: nat): seq<ObEvent>
    requires n <= |before| == |after|
  {
    if n == 0 then [] else AnnounceAll(before, after, position, n - 1) + Announce(before[n - 1], after[n - 1], position)
  }

  function Confirmation(s: Shape, position: nat): ObEvent {
    ObEvent(BlockConfirmed, position, s.dir, Some(s.proximal), s, None)
  }

  function Creation(s: Shape, position: nat): ObEvent {
    ObEvent(BlockCreated, position, s.dir, Some(s.proximal), s, None)
  }

  // ----- One row -----

  /** `pending` is the row of the last MSS that created a block and has not resolved. */
  datatype Engine = Engine(blocks: seq<Block>, pending: Option<nat>)

  /** What a row does to the blocks already there, stage by stage; `pending` is
      what is left of the pending MSS, `skip` whether a promotion stands in for a
      new block. */
  datatype Stage = Stage(
    priced: seq<Block>, cascaded: seq<Block>, promoted: Option<nat>, confirmed: seq<Block>,
    skip: bool, aged: seq<Block>, pending: Option<nat>)

  function Survey(s: Engine, rows: seq<ObRow>, position: nat, cfg: Settings): (stage: Stage)
    requires position < |rows|
    ensures |stage.priced| == |stage.cascaded| == |stage.confirmed| == |stage.aged| == |s.blocks|
    ensures stage.promoted.Some? ==> stage.promoted.value < |s.blocks|
  {
    var row := rows[position];
    var priced := PricedAll(s.blocks, row, position, Clearance(cfg));
    var cascaded := CascadedAll(priced, row, position);
    var pending := if row.event == Some(MSSInvalidated) then None else s.pending;
    var promoted := Promoted(cascaded, row, position, pending);
    var confirmed := Promote(cascaded, promoted, position);
    var skip := promoted.Some? && row.dir.Some?
                && SourceCandle(rows, position, row.dir.value, cfg.lookback)
                   == Some(confirmed[promoted.value].shape.candle);
    Stage(priced, cascaded, promoted, confirmed, skip, AgedAll(confirmed, position, cfg.maxAge),
          if row.event == Some(CHoCH) then None else pending)
  }

  function Birth(stage: Stage, rows: seq<ObRow>, position: nat, cfg: Settings): Option<Block>
    requires position < |rows|
  {
    if stage.skip then None else Born(rows, position, cfg, |stage.aged| + 1)
  }

  function Joined(stage: Stage, born: Option<Block>, row: ObRow, position: nat): Engine {
    if born.None? then Engine(stage.aged, stage.pending)
    else Engine(stage.aged + [born.value], if row.event == Some(MSS) then Some(position) else stage.pending)
  }

  function Process(s: Engine, rows: seq<ObRow>, position: nat, cfg: Settings): Engine
    requires position < |rows|
  {
    var stage := Survey(s, rows, position, cfg);
    Joined(stage, Birth(stage, rows, position, cfg), rows[position], position)
  }

  /** Announcements about the blocks already there, in the order they are made. */
  function ExistingEvents(blocks: seq<Block>, stage: Stage, position: nat): seq<ObEvent>
    requires |stage.priced| == |stage.cascaded| == |blocks|
    requires stage.promoted.Some? ==> stage.promoted.value < |blocks|
  {
    AnnounceAll(blocks, stage.priced, position, |blocks|)
    + AnnounceAll(stage.priced, stage.cascaded, position, |blocks|)
    + if stage.promoted.Some? then [Confirmation(stage.cascaded[stage.promoted.value].shape, position)] else []
  }

  function BirthEvents(born: Option<Block>, position: nat): seq<ObEvent> {
    if born.Some? then [Creation(born.value.shape, position)] else []
  }

  function RowEvents(s: Engine, rows: seq<ObRow>, position: nat, cfg: Settings): seq<ObEvent>
    requires position < |rows|
  {
    var stage := Survey(s, rows, position, cfg);
    ExistingEvents(s.blocks, stage, position) + BirthEvents(Birth(stage, rows, position, cfg), position)
  }

  // ----- Columns of a row -----

  /** Each cell names the block of the last event of its kind on the row. */
  datatype ObCells = ObCells(
    created: Option<Shape>, mitigated: Option<ObEvent>, invalidated: Option<ObEvent>,
    confirmed: Option<nat>, expired: Option<nat>, activeBullish: nat, activeBearish: nat)

  const BLANK := ObCells(None, None, None, None, None, 0, 0)

  function Mark(c: ObCells, e: ObEvent): ObCells {
    match e.kind
    case BlockCreated => c.(created := Some(e.block))
    case BlockMitigated => c.(mitigated := Some(e))
    case BlockInvalidated => c.(invalidated := Some(e))
    case BlockConfirmed => c.(confirmed := Some(e.block.id))
  }

  function Marked(c: ObCells, events: seq<ObEvent>): ObCells {
    if events == [] then c else Mark(Marked(c, events[..|events| - 1]), events[|events| - 1])
  }

  /** The last block that expires on this row. */
  function LastExpired(before: seq<Block>, after: seq<Block>, n: nat): Option<nat>
    requires n <= |before| == |after|
  {
    if n == 0 then None
    else if before[n - 1] != after[n - 1] then Some(after[n - 1].shape.id)
    else LastExpired(before, after, n - 1)
  }

  function ActiveCount(blocks: seq<Block>, d: Direction, n: nat): nat
    requires n <= |blocks|
  {
    if n == 0 then 0
    else ActiveCount(blocks, d, n - 1) + if IsActive(blocks[n - 1].life) && blocks[n - 1].shape.dir == d then 1 else 0
  }

  function Counted(cells: ObCells, expired: Option<nat>, blocks: seq<Block>): ObCells {
    cells.(expired := expired,
           activeBullish := ActiveCount(blocks, Bullish, |blocks|),
           activeBearish := ActiveCount(blocks, Bearish, |blocks|))
  }

  function RowCells(s: Engine, rows: seq<ObRow>, position: nat, cfg: Settings): ObCells
    requires position < |rows|
  {
    var stage := Survey(s, rows, position, cfg);
    Counted(Marked(BLANK, RowEvents(s, rows, position, cfg)),
            LastExpired(stage.confirmed, stage.aged, |s.blocks|), Process(s, rows, position, cfg).blocks)
  }

  // ----- Whole runs -----

  /** The engine after the first `p` rows. */
  function EngineAt(rows: seq<ObRow>, cfg: Settings, p: nat): Engine
    requires p <= |rows|
  {
    if p == 0 then Engine([], None) else Process(EngineAt(rows, cfg, p - 1), rows, p - 1, cfg)
  }

  function EventsUpTo(rows: seq<ObRow>, cfg: Settings, p: nat): seq<ObEvent>
    requires p <= |rows|
  {
    if p == 0 then [] else EventsUpTo(rows, cfg, p - 1) + RowEvents(EngineAt(rows, cfg, p - 1), rows, p - 1, cfg)
  }

  function CellsAt(rows: seq<ObRow>, cfg: Settings, p: nat): ObCells
    requires p < |rows|
  {
    RowCells(EngineAt(rows, cfg, p), rows, p, cfg)
  }

  // ----- Identity -----

  /** No stage touches what a block is. */
  lemma {:induction false} ShapesStay(s: Engine, rows: seq<ObRow>, position: nat, cfg: Settings, i: nat)
    requires position < |rows| && i < |s.blocks|
    ensures
      var stage := Survey(s, rows, position, cfg);
      stage.priced[i].shape == stage.cascaded[i].shape == stage.confirmed[i].shape == stage.aged[i].shape
        == s.blocks[i].shape
  {
  }

  predicate Numbered(blocks: seq<Block>) {
    forall i :: 0 <= i < |blocks| ==> blocks[i].shape.id == i + 1
  }

  lemma {:induction false} StepKeepsNumbers(s: Engine, rows: seq<ObRow>, position: nat, cfg: Settings)
    requires position < |rows| && Numbered(s.blocks)
    ensures Numbered(Survey(s, rows, position, cfg).aged) && Numbered(Process(s, rows, position, cfg).blocks)
  {
    var aged := Survey(s, rows, position, cfg).aged;
    forall i | 0 <= i < |s.blocks| ensures aged[i].shape.id == i + 1 {
      ShapesStay(s, rows, position, cfg, i);
    }
  }

  lemma {:induction false} NothingNumbered()
    ensures Numbered([])
  {
  }

  /** Block ids count the blocks, so none is ever used twice. */
  lemma {:induction false} RunsAreNumbered(rows: seq<ObRow>, cfg: Settings, p: nat)
    requires p <= |rows|
    ensures Numbered(EngineAt(rows, cfg, p).blocks)
  {
    hide Process, Numbered;
    if p == 0 {
      NothingNumbered();
    } else {
      RunsAreNumbered(rows, cfg, p - 1);
      StepKeepsNumbers(EngineAt(rows, cfg, p - 1), rows, p - 1, cfg);
    }
  }
}
