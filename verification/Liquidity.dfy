/** Liquidity pools as values: equal highs and equal lows, and what later candles
    do to them. */
module Liquidity {
  import opened Domain

  /** Buy-side liquidity rests above equal highs, sell-side below equal lows. */
  datatype Side = BSL | SSL

  datatype PoolStatus = ActivePool | SweptPool | BrokenPool | ExpiredPool

  /** `number` with the side is the text id `EQH_<n>` or `EQL_<n>`. */
  datatype PoolShape = PoolShape(
    side: Side, number: nat, level: real, created: nat,
    firstIndex: nat, firstPrice: real, secondPrice: real)

  datatype PoolLife = PoolLife(
    status: PoolStatus,
    swept: bool, sweptIndex: Option<nat>, sweepPrice: Option<real>, sweepClose: Option<real>,
    sweepDistance: Option<real>, sweepPips: Option<real>, sweepDirection: Option<Direction>,
    broken: bool, brokenIndex: Option<nat>, breakPrice: Option<real>, breakClose: Option<real>,
    breakDistance: Option<real>, breakPips: Option<real>,
    expired: bool, expiredIndex: Option<nat>)

  datatype Pool = Pool(shape: PoolShape, life: PoolLife)

  const NEWBORN := PoolLife(ActivePool, false, None, None, None, None, None, None,
                            false, None, None, None, None, None, false, None)

  predicate IsActive(l: PoolLife) {
    l.status == ActivePool && !l.swept && !l.broken && !l.expired
  }

  function MarkSwept(p: Pool, index: nat, price: real, close: real, distance: real, pips: real, d: Direction): Pool {
    p.(life := p.life.(status := SweptPool, swept := true, sweptIndex := Some(index),
                       sweepPrice := Some(price), sweepClose := Some(close),
                       sweepDistance := Some(distance), sweepPips := Some(pips), sweepDirection := Some(d)))
  }

  function MarkBroken(p: Pool, index: nat, price: real, close: real, distance: real, pips: real): Pool {
    p.(life := p.life.(status := BrokenPool, broken := true, brokenIndex := Some(index),
                       breakPrice := Some(price), breakClose := Some(close),
                       breakDistance := Some(distance), breakPips := Some(pips)))
  }

  function MarkExpired(p: Pool, index: nat): Pool {
    p.(life := p.life.(status := ExpiredPool, expired := true, expiredIndex := Some(index)))
  }

  // ----- Rows and settings -----

  datatype LiqRow = LiqRow(
    high: Option<real>, low: Option<real>, close: Option<real>,
    tag: Option<Label>, swingHighPrice: Option<real>, swingLowPrice: Option<real>)

  datatype LiqSettings = LiqSettings(
    tolerancePips: real, pip: Positive, minSweepPips: real, breakPips: real, maxAge: Option<nat>)

  predicate ValidSettings(cfg: LiqSettings) {
    cfg.tolerancePips >= 0.0 && cfg.minSweepPips >= 0.0 && cfg.breakPips >= 0.0
  }

  /** The age limit is only looked at on a row. */
  predicate ValidAge(cfg: LiqSettings) { cfg.maxAge.Some? ==> cfg.maxAge.value >= 1 }

  function Scaled(pips: real, pip: Positive): real { pips * pip }

  predicate HasPrices(row: LiqRow) { row.high.Some? && row.low.Some? && row.close.Some? }

  /** How far the candle reaches beyond the level. */
  function Overshoot(s: PoolShape, row: LiqRow): real
    requires HasPrices(row)
  {
    if s.side == BSL then row.high.value - s.level else s.level - row.low.value
  }

  /** How far it closes beyond the level. */
  function CloseBeyond(s: PoolShape, row: LiqRow): real
    requires HasPrices(row)
  {
    if s.side == BSL then row.close.value - s.level else s.level - row.close.value
  }

  /** The level is taken by the wick and given back by the close. */
  predicate SweptBy(s: PoolShape, row: LiqRow, cfg: LiqSettings)
    requires HasPrices(row)
  {
    Overshoot(s, row) > 0.0 && CloseBeyond(s, row) < 0.0 && Overshoot(s, row) >= Scaled(cfg.minSweepPips, cfg.pip)
  }

  predicate BrokenBy(s: PoolShape, row: LiqRow, cfg: LiqSettings)
    requires HasPrices(row)
  {
    CloseBeyond(s, row) > Scaled(cfg.breakPips, cfg.pip)
  }

  function Extreme(s: PoolShape, row: LiqRow): real
    requires HasPrices(row)
  {
    if s.side == BSL then row.high.value else row.low.value
  }

  /** A sweep of buy-side liquidity points down, of sell-side liquidity up. */
  function SweepDirection(side: Side): Direction { if side == BSL then Bearish else Bullish }

  function Sweep(p: Pool, row: LiqRow, index: nat, cfg: LiqSettings): Pool
    requires HasPrices(row)
  {
    MarkSwept(p, index, Extreme(p.shape, row), row.close.value, Overshoot(p.shape, row),
              Overshoot(p.shape, row) / cfg.pip, SweepDirection(p.shape.side))
  }

  function BreakThrough(p: Pool, row: LiqRow, index: nat, cfg: LiqSettings): Pool
    requires HasPrices(row)
  {
    MarkBroken(p, index, Extreme(p.shape, row), row.close.value, CloseBeyond(p.shape, row),
               CloseBeyond(p.shape, row) / cfg.pip)
  }

  function Checked(p: Pool, row: LiqRow, index: nat, cfg: LiqSettings): Pool {
    if !HasPrices(row) || !IsActive(p.life) then p
    else if SweptBy(p.shape, row, cfg) then Sweep(p, row, index, cfg)
    else if BrokenBy(p.shape, row, cfg) then BreakThrough(p, row, index, cfg)
    else p
  }

  function Aged(p: Pool, index: nat, maxAge: Option<nat>): Pool {
    if maxAge.Some? && IsActive(p.life) && index - p.shape.created >= maxAge.value then MarkExpired(p, index) else p
  }

  function CheckedAll(pools: seq<Pool>, row: LiqRow, index: nat, cfg: LiqSettings): seq<Pool> {
    seq(|pools|, i requires 0 <= i < |pools| => Checked(pools[i], row, index, cfg))
  }

  function AgedAll(pools: seq<Pool>, index: nat, maxAge: Option<nat>): seq<Pool> {
    seq(|pools|, i requires 0 <= i < |pools| => Aged(pools[i], index, maxAge))
  }

  // ----- Equal highs and lows -----

  datatype Swing = Swing(price: real, row: nat)

  /** The last labelled swing of each kind, and how many pools of each side exist. */
  datatype Tracker = Tracker(high: Option<Swing>, low: Option<Swing>, highs: nat, lows: nat)

  const UNTRACKED := Tracker(None, None, 0, 0)

  function Abs(x: real): real { if x < 0.0 then -x else x }

  function SideOf(tag: Label): Side { if tag == HH || tag == LH then BSL else SSL }

  /** The swing a labelled row adds to its side. */
  function NewSwing(row: LiqRow, index: nat): Option<Swing> {
    if row.tag.None? then None
    else
      var price := if SideOf(row.tag.value) == BSL then row.swingHighPrice else row.swingLowPrice;
      if price.None? then None else Some(Swing(price.value, index))
  }

  function PreviousSwing(t: Tracker, side: Side): Option<Swing> { if side == BSL then t.high else t.low }

  function Groups(t: Tracker, side: Side): nat { if side == BSL then t.highs else t.lows }

  predicate Equal(a: Swing, b: Swing, cfg: LiqSettings) {
    Abs(b.price - a.price) <= Scaled(cfg.tolerancePips, cfg.pip)
  }

  function Born(t: Tracker, row: LiqRow, index: nat, cfg: LiqSettings): Option<Pool> {
    var swing := NewSwing(row, index);
    if swing.None? then None
    else
      var side := SideOf(row.tag.value);
      var previous := PreviousSwing(t, side);
      if previous.None? || !Equal(previous.value, swing.value, cfg) then None
      else Some(Pool(PoolShape(side, Groups(t, side) + 1, (previous.value.price + swing.value.price) / 2.0, index,
                               previous.value.row, previous.value.price, swing.value.price), NEWBORN))
  }

  function Tracked(t: Tracker, row: LiqRow, index: nat, cfg: LiqSettings): Tracker {
    var swing := NewSwing(row, index);
    var more := if Born(t, row, index, cfg).Some? then 1 else 0;
    if swing.None? then t
    else if SideOf(row.tag.value) == BSL then Tracker(swing, t.low, t.highs + more, t.lows)
    else Tracker(t.high, swing, t.highs, t.lows + more)
  }

  // ----- Events and columns -----

  datatype LiqEventKind = PoolCreated | PoolSwept | PoolBroken

  datatype LiqEvent = LiqEvent(kind: LiqEventKind, row: nat, dir: Direction, price: real, pool: PoolShape)

  function Announce(before: Pool, after: Pool, index: nat): seq<LiqEvent> {
    var s, l := after.shape, after.life;
    if before.life.status == l.status then []
    else if l.swept && l.sweepPrice.Some? then
      [LiqEvent(PoolSwept, index, SweepDirection(s.side), l.sweepPrice.value, s)]
    else if l.broken && l.breakClose.Some? then
      [LiqEvent(PoolBroken, index, Opposite(SweepDirection(s.side)), l.breakClose.value, s)]
    else []
  }

  function AnnounceAll(before: seq<Pool>, after: seq<Pool>, index: nat, n: nat): seq<LiqEvent>
    requires n <= |before| == |after|
  {
    if n == 0 then [] else AnnounceAll(before, after, index, n - 1) + Announce(before[n - 1], after[n - 1], index)
  }

  function Creation(s: PoolShape, index: nat): LiqEvent {
    LiqEvent(PoolCreated, index, SweepDirection(s.side), s.level, s)
  }

  /** Each cell names the pool of the last event of its kind on the row. */
  datatype LiqCells = LiqCells(
    created: Option<PoolShape>, swept: Option<LiqEvent>, broken: Option<LiqEvent>, activeBsl: nat, activeSsl: nat)

  const BLANK := LiqCells(None, None, None, 0, 0)

  function Mark(c: LiqCells, e: LiqEvent): LiqCells {
    match e.kind
    case PoolCreated => c.(created := Some(e.pool))
    case PoolSwept => c.(swept := Some(e))
    case PoolBroken => c.(broken := Some(e))
  }

  function Marked(c: LiqCells, events: seq<LiqEvent>): LiqCells {
    if events == [] then c else Mark(Marked(c, events[..|events| - 1]), events[|events| - 1])
  }

  function ActiveCount(pools: seq<Pool>, side: Side, n: nat): nat
    requires n <= |pools|
  {
    if n == 0 then 0
    else
      ActiveCount(pools, side, n - 1)
      + if IsActive(pools[n - 1].life) && pools[n - 1].shape.side == side then 1 else 0
  }

  // ----- One row -----

  datatype Engine = Engine(pools: seq<Pool>, tracker: Tracker)

  function Survivors(s: Engine, row: LiqRow, index: nat, cfg: LiqSettings): seq<Pool> {
    AgedAll(CheckedAll(s.pools, row, index, cfg), index, cfg.maxAge)
  }

  function Process(s: Engine, row: LiqRow, index: nat, cfg: LiqSettings): Engine {
    var born := Born(s.tracker, row, index, cfg);
    Engine(Survivors(s, row, index, cfg) + (if born.Some? then [born.value] else []),
           Tracked(s.tracker, row, index, cfg))
  }

  function RowEvents(s: Engine, row: LiqRow, index: nat, cfg: LiqSettings): seq<LiqEvent> {
    var born := Born(s.tracker, row, index, cfg);
    AnnounceAll(s.pools, CheckedAll(s.pools, row, index, cfg), index, |s.pools|)
    + if born.Some? then [Creation(born.value.shape, index)] else []
  }

  function RowCells(s: Engine, row: LiqRow, index: nat, cfg: LiqSettings): LiqCells {
    var after := Process(s, row, index, cfg).pools;
    Marked(BLANK, RowEvents(s, row, index, cfg)).(
      activeBsl := ActiveCount(after, BSL, |after|), activeSsl := ActiveCount(after, SSL, |after|))
  }

  // ----- Whole runs -----

  function EngineAt(rows: seq<LiqRow>, cfg: LiqSettings, p: nat): Engine
    requires p <= |rows|
  {
    if p == 0 then Engine([], UNTRACKED) else Process(EngineAt(rows, cfg, p - 1), rows[p - 1], p - 1, cfg)
  }

  function EventsUpTo(rows: seq<LiqRow>, cfg: LiqSettings, p: nat): seq<LiqEvent>
    requires p <= |rows|
  {
    if p == 0 then [] else EventsUpTo(rows, cfg, p - 1) + RowEvents(EngineAt(rows, cfg, p - 1), rows[p - 1], p - 1, cfg)
  }

  function CellsAt(rows: seq<LiqRow>, cfg: LiqSettings, p: nat): LiqCells
    requires p < |rows|
  {
    RowCells(EngineAt(rows, cfg, p), rows[p], p, cfg)
  }

  /** The equal-high (or equal-low) cell of row `r`: the last of the first `n` pools
      of that side that was built from the swing at `r`. */
  function EqualMark(pools: seq<Pool>, side: Side, r: nat, n: nat): Option<PoolShape>
    requires n <= |pools|
  {
    if n == 0 then None
    else
      var s := pools[n - 1].shape;
      if s.side == side && (s.firstIndex == r || s.created == r) then Some(s) else EqualMark(pools, side, r, n - 1)
  }

  // ----- Identity -----

  predicate NumberedBy(pools: seq<Pool>, t: Tracker) {
    && (forall i :: 0 <= i < |pools| ==> 1 <= pools[i].shape.number <= Groups(t, pools[i].shape.side))
    && forall i, j :: 0 <= i < j < |pools| && pools[i].shape.side == pools[j].shape.side ==>
         pools[i].shape.number < pools[j].shape.number
  }

  lemma {:induction false} ShapesStay(s: Engine, row: LiqRow, index: nat, cfg: LiqSettings, i: nat)
    requires i < |s.pools|
    ensures |Survivors(s, row, index, cfg)| == |s.pools| && Survivors(s, row, index, cfg)[i].shape == s.pools[i].shape
  {
  }

  lemma {:induction false} StepKeepsNumbers(s: Engine, row: LiqRow, index: nat, cfg: LiqSettings)
    requires NumberedBy(s.pools, s.tracker)
    ensures NumberedBy(Process(s, row, index, cfg).pools, Process(s, row, index, cfg).tracker)
    ensures NumberedBy(Survivors(s, row, index, cfg), s.tracker)
  {
    var kept, after := Survivors(s, row, index, cfg), Process(s, row, index, cfg);
    forall i | 0 <= i < |s.pools| ensures |kept| == |s.pools| && kept[i].shape == s.pools[i].shape {
      ShapesStay(s, row, index, cfg, i);
    }
    assert forall i :: 0 <= i < |s.pools| ==> after.pools[i] == kept[i];
  }

  lemma {:induction false} NothingNumbered()
    ensures NumberedBy([], UNTRACKED)
  {
  }

  /** Pools of one side are numbered upwards in creation order, so no id is ever used
      twice. */
  lemma {:induction false} RunsAreNumbered(rows: seq<LiqRow>, cfg: LiqSettings, p: nat)
    requires p <= |rows|
    ensures NumberedBy(EngineAt(rows, cfg, p).pools, EngineAt(rows, cfg, p).tracker)
  {
    hide Process, NumberedBy;
    if p == 0 {
      NothingNumbered();
    } else {
      RunsAreNumbered(rows, cfg, p - 1);
      StepKeepsNumbers(EngineAt(rows, cfg, p - 1), rows[p - 1], p - 1, cfg);
    }
  }

  predicate LooksBack(t: Tracker, index: nat) {
    (t.high.Some? ==> t.high.value.row < index) && (t.low.Some? ==> t.low.value.row < index)
  }

  lemma {:induction false} TrackerLooksBack(rows: seq<LiqRow>, cfg: LiqSettings, p: nat)
    requires p <= |rows|
    ensures LooksBack(EngineAt(rows, cfg, p).tracker, p)
  {
    if p > 0 {
      TrackerLooksBack(rows, cfg, p - 1);
    }
  }

  lemma {:induction false} BornLooksBack(t: Tracker, row: LiqRow, index: nat, cfg: LiqSettings)
    requires LooksBack(t, index)
    ensures
      var born := Born(t, row, index, cfg);
      born.Some? ==>
        born.value.shape.firstIndex < index && born.value.shape.created == index && born.value.life == NEWBORN
  {
  }
}
