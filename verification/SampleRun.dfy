/** One candle series taken through every engine to a proposal: the assumptions of
    the end-to-end results can be met together. */
module SampleRun {
  import opened Domain
  import opened Swings
  import S = Structure
  import L = StructureLog
  import Q = Liquidity
  import O = OrderBlocks
  import Life = OrderBlockLife
  import P = PositionSize
  import Pipeline
  import opened Selectors
  import opened Signal
  import opened Proposals

  function Bar(time: int, open: real, high: real, low: real, close: real): Candle {
    Candle(time, open, high, low, close, Some(1.0))
  }

  /** Swing lows on rows 1, 3, 5, 7 and swing highs on rows 2, 4, 6, 8. Row 3 starts a
      bearish trend, row 6 is a bullish MSS, row 7 its HL and a sweep of the lows of
      rows 3 and 5, row 8 the CHoCH, and row 9 returns into its Order Block. */
  const SERIES := [
    Bar(0, 16.0, 18.0, 15.0, 17.0), Bar(1, 16.0, 17.0, 13.0, 14.0), Bar(2, 15.0, 20.0, 14.0, 19.0),
    Bar(3, 15.0, 16.0, 12.0, 13.0), Bar(4, 14.0, 17.0, 13.0, 16.0), Bar(5, 14.0, 15.0, 10.0, 11.0),
    Bar(6, 14.0, 20.0, 13.0, 19.0), Bar(7, 15.0, 16.0, 10.5, 11.5), Bar(8, 15.0, 24.0, 14.0, 23.0),
    Bar(9, 16.0, 17.0, 13.0, 14.5)]

  /** Order Blocks from the given kinds of event. */
  function Enabling(kinds: set<EventKind>): Pipeline.Options {
    Pipeline.Options(
      1, 1, 0.1, Q.LiqSettings(2.0, 1.0, 0.0, 0.0, None), O.Settings(kinds, 5, 0.0, 0.0, false, 0.0, 1.0, None))
  }

  const OPTIONS := Enabling({CHoCH})

  // ----- Structure -----

  function RowAt(p: nat): S.SwingRow
    requires p < 10
  {
    Flagged(SERIES[p], p in {2, 4, 6, 8}, p in {1, 3, 5, 7})
  }

  function Rows(): (rows: seq<S.SwingRow>)
    ensures |rows| == 10
  {
    Pipeline.SwingRows(SERIES, OPTIONS)
  }

  lemma {:induction false} SwingsAre(p: nat)
    requires p < 10
    ensures Rows()[p] == RowAt(p) && SwingRowAt(SERIES, 1, 1, p) == RowAt(p)
  {
    if 1 <= p < 9 {
      Peak(SERIES, p);
      NoPeak(SERIES, p, p - 1);
      NoPeak(SERIES, p, p + 1);
      hide IsSwingHigh, IsSwingLow;
    }
  }

  function Low(price: real): S.Level { S.Level(price, FromHL) }

  function Falling(anchor: S.Level, candidate: Option<real>, target: real): S.Cycle {
    S.Trending(Bearish, Some(anchor), candidate, Some(target), None)
  }

  const SHIFTED := S.Level(17.0, FromLH)

  /** The structure engine before row `p`. */
  function StateAt(p: nat): S.Snapshot
    requires p <= 10
  {
    match p
    case 0 => S.START
    case 1 => S.START
    case 2 => S.Snapshot(S.Undecided, S.Memory(None, Some(13.0), None, Some(13.0), None, None))
    case 3 => S.Snapshot(S.Undecided, S.Memory(Some(20.0), Some(13.0), Some(20.0), Some(13.0), None, None))
    case 4 => S.Snapshot(Falling(S.Level(20.0, FromLatestSwing), None, 12.0),
                         S.Memory(Some(20.0), Some(12.0), Some(20.0), Some(12.0), None, Some(12.0)))
    case 5 => S.Snapshot(Falling(SHIFTED, Some(17.0), 12.0),
                         S.Memory(Some(17.0), Some(12.0), Some(17.0), Some(12.0), Some(17.0), Some(12.0)))
    case 6 => S.Snapshot(Falling(SHIFTED, Some(17.0), 10.0),
                         S.Memory(Some(17.0), Some(10.0), Some(17.0), Some(10.0), Some(17.0), Some(10.0)))
    case 7 => S.Snapshot(S.Challenged(Bearish, SHIFTED, 6, Some(17.0), Some(10.0), None, None),
                         S.Memory(Some(20.0), Some(10.0), Some(20.0), Some(10.0), Some(20.0), Some(10.0)))
    case 8 => S.Snapshot(S.Challenged(Bearish, SHIFTED, 6, Some(17.0), Some(10.0), None, Some(10.5)),
                         S.Memory(Some(20.0), Some(10.5), Some(20.0), Some(10.5), Some(20.0), Some(10.5)))
    case _ => S.Snapshot(S.Trending(Bullish, Some(Low(10.5)), Some(10.5), Some(24.0), None),
                         S.Memory(Some(24.0), Some(10.5), None, None, Some(24.0), Some(10.5)))
  }

  function TagAt(p: nat): Option<Label> {
    match p
    case 3 => Some(LL)
    case 4 => Some(LH)
    case 5 => Some(LL)
    case 6 => Some(HH)
    case 7 => Some(HL)
    case 8 => Some(HH)
    case _ => None
  }

  function EventAt(p: nat): Option<S.Event> {
    match p
    case 6 => Some(S.Event(MSS, Bullish, 17.0, Some(2.0), None))
    case 8 => Some(S.Event(CHoCH, Bullish, 17.0, None, None))
    case _ => None
  }

  predicate StepsTo(p: nat)
    requires p < 10
  {
    var move := S.Advanced(StateAt(p), RowAt(p), 0.1, p);
    move.next == StateAt(p + 1) && move.event == EventAt(p) && S.LabelOf(StateAt(p).memory, RowAt(p)) == TagAt(p)
  }

  lemma {:induction false} FirstSteps()
    ensures StepsTo(0) && StepsTo(1) && StepsTo(2)
  {
  }

  lemma {:induction false} FallingSteps()
    ensures StepsTo(3) && StepsTo(4)
  {
  }

  lemma {:induction false} ShiftSteps()
    ensures StepsTo(5) && StepsTo(6)
  {
  }

  lemma {:induction false} PullbackStep()
    ensures StepsTo(7)
  {
  }

  lemma {:induction false} LastSteps()
    ensures StepsTo(8) && StepsTo(9)
  {
  }

  lemma {:induction false} Steps(p: nat)
    requires p < 10
    ensures StepsTo(p)
  {
    hide StepsTo;
    FirstSteps();
    FallingSteps();
    ShiftSteps();
    PullbackStep();
    LastSteps();
    assert p in {0, 1, 2, 3, 4, 5, 6, 7, 8, 9};
  }

  lemma {:induction false} States(p: nat)
    requires p <= 10
    ensures S.At(Rows(), 0.1, p) == StateAt(p)
  {
    hide S.Advanced, StateAt, RowAt, Rows;
    if p == 0 {
      StartState();
    } else {
      States(p - 1);
      SwingsAre(p - 1);
      Steps(p - 1);
    }
  }

  lemma {:induction false} StartState()
    ensures StateAt(0) == S.START
  {
  }

  /** What the other engines read of a row. */
  lemma {:induction false} OutIs(p: nat)
    requires p < 10
    ensures
      var o, e := Pipeline.OutAt(SERIES, OPTIONS, p), EventAt(p);
      && o == S.OutAt(Rows(), 0.1, p) && o.tag == TagAt(p) && o.trend == S.TrendOf(StateAt(p + 1).cycle)
      && o.event == (if e.Some? then Some(e.value.kind) else None)
      && o.direction == (if e.Some? then Some(e.value.dir) else None)
      && o.brokenLevel == (if e.Some? then Some(e.value.level) else None)
  {
    hide S.Advanced, S.At, StateAt, RowAt, Rows, EventAt, TagAt, S.LabelOf;
    States(p);
    SwingsAre(p);
    Steps(p);
    assert Rows() == Pipeline.SwingRows(SERIES, OPTIONS) by { RowsAre(); }
  }

  lemma {:induction false} RowsAre()
    ensures Rows() == Pipeline.SwingRows(SERIES, OPTIONS)
  {
  }

  // ----- Liquidity -----

  function LiqRowAt(p: nat): Q.LiqRow
    requires p < 10
  {
    var c, row := SERIES[p], RowAt(p);
    Q.LiqRow(Some(c.high), Some(c.low), Some(c.close), TagAt(p), row.swingHighPrice, row.swingLowPrice)
  }

  function LiqRows(): (rows: seq<Q.LiqRow>)
    ensures |rows| == 10
  {
    Pipeline.LiqRows(SERIES, OPTIONS)
  }

  lemma {:induction false} LiqRowIs(p: nat)
    requires p < 10
    ensures LiqRows()[p] == LiqRowAt(p)
  {
    hide Pipeline.OutAt, SwingRowAt, TagAt, RowAt;
    OutIs(p);
    SwingsAre(p);
  }

  /** Sell-side liquidity between the lows of rows 3 and 5. */
  const POOL := Q.Pool(Q.PoolShape(Q.SSL, 1, 11.0, 5, 3, 12.0, 10.0), Q.NEWBORN)

  function PoolsAt(p: nat): Q.Engine
    requires p <= 7
  {
    match p
    case 4 => Q.Engine([], Q.Tracker(None, Some(Q.Swing(12.0, 3)), 0, 0))
    case 5 => Q.Engine([], Q.Tracker(Some(Q.Swing(17.0, 4)), Some(Q.Swing(12.0, 3)), 0, 0))
    case 6 => Q.Engine([POOL], Q.Tracker(Some(Q.Swing(17.0, 4)), Some(Q.Swing(10.0, 5)), 0, 1))
    case 7 => Q.Engine([POOL], Q.Tracker(Some(Q.Swing(20.0, 6)), Some(Q.Swing(10.0, 5)), 0, 1))
    case _ => Q.Engine([], Q.UNTRACKED)
  }

  lemma {:induction false} PoolStep(p: nat)
    requires p < 7
    ensures Q.Process(PoolsAt(p), LiqRowAt(p), p, OPTIONS.liquidity) == PoolsAt(p + 1)
  {
  }

  lemma {:induction false} PoolsAre(p: nat)
    requires p <= 7
    ensures Q.EngineAt(LiqRows(), OPTIONS.liquidity, p) == PoolsAt(p)
  {
    hide Q.Process, LiqRows, LiqRowAt;
    if p > 0 {
      PoolsAre(p - 1);
      LiqRowIs(p - 1);
      PoolStep(p - 1);
    }
  }

  const SWEEP := Q.LiqEvent(Q.PoolSwept, 7, Bullish, 10.5, POOL.shape)

  lemma {:induction false} SweepOnRow()
    ensures SWEEP in Q.RowEvents(PoolsAt(7), LiqRowAt(7), 7, OPTIONS.liquidity)
  {
    var swept := Q.Checked(POOL, LiqRowAt(7), 7, OPTIONS.liquidity);
    assert Q.Announce(POOL, swept, 7) == [SWEEP];
    assert Q.AnnounceAll([POOL], [swept], 7, 1) == Q.AnnounceAll([POOL], [swept], 7, 0) + Q.Announce(POOL, swept, 7);
    assert Q.CheckedAll([POOL], LiqRowAt(7), 7, OPTIONS.liquidity) == [swept];
  }

  lemma {:induction false} EventsStay(rows: seq<Q.LiqRow>, cfg: Q.LiqSettings, e: Q.LiqEvent, p: nat, n: nat)
    requires p <= n <= |rows| && e in Q.EventsUpTo(rows, cfg, p)
    ensures e in Q.EventsUpTo(rows, cfg, n)
    decreases n - p
  {
    hide Q.RowEvents, Q.EngineAt;
    if p < n {
      EventsStay(rows, cfg, e, p, n - 1);
    }
  }

  lemma {:induction false} SweepIsEmitted()
    ensures SWEEP in Q.EventsUpTo(LiqRows(), OPTIONS.liquidity, 10)
  {
    hide Q.RowEvents, Q.EngineAt, LiqRows, LiqRowAt, PoolsAt;
    PoolsAre(7);
    LiqRowIs(7);
    SweepOnRow();
    assert SWEEP in Q.EventsUpTo(LiqRows(), OPTIONS.liquidity, 8);
    EventsStay(LiqRows(), OPTIONS.liquidity, SWEEP, 8, 10);
  }

  // ----- Order Blocks -----

  function ObRows(): (rows: seq<O.ObRow>)
    ensures |rows| == 10
  {
    Pipeline.ObRows(SERIES, OPTIONS)
  }

  predicate Reads(row: O.ObRow, p: nat)
    requires p < 10
  {
    var c, e := SERIES[p], EventAt(p);
    && row.open == Some(c.open) && row.high == Some(c.high) && row.low == Some(c.low) && row.close == Some(c.close)
    && row.atr == Some(1.0)
    && row.event == (if e.Some? then Some(e.value.kind) else None)
    && row.dir == (if e.Some? then Some(e.value.dir) else None)
    && row.brokenLevel == (if e.Some? then Some(e.value.level) else None)
  }

  lemma {:induction false} ObRowReads(p: nat)
    requires p < 10
    ensures Reads(ObRows()[p], p)
  {
    hide Pipeline.OutAt, Pipeline.LiqCellsAt, EventAt;
    OutIs(p);
    assert SERIES[p].atr == Some(1.0);
  }

  lemma {:induction false} QuietRow(rows: seq<O.ObRow>, position: nat)
    requires position < |rows| && rows[position].event != Some(CHoCH)
    ensures O.Process(O.Engine([], None), rows, position, OPTIONS.blocks) == O.Engine([], None)
  {
  }

  lemma {:induction false} NoBlocksYet(p: nat)
    requires p <= 8
    ensures O.EngineAt(ObRows(), OPTIONS.blocks, p) == O.Engine([], None)
  {
    hide O.Process, ObRows;
    if p > 0 {
      NoBlocksYet(p - 1);
      ObRowReads(p - 1);
      QuietRow(ObRows(), p - 1);
    }
  }

  const SHAPE :=
    O.Shape(1, Bullish, 8, 7, 16.0, 10.5, 15.0, 11.5, 16.0, 10.5, O.SourceId(CHoCH, 8), Some(17.0), 12.5, 12.5, 1.0)

  const BORN := O.Block(SHAPE, O.Newborn(O.Confirmed))

  const BLOCK := O.MarkMitigated(BORN, 9, 13.0)

  lemma {:induction false} SourceIsRow7(rows: seq<O.ObRow>)
    requires |rows| == 10 && Reads(rows[7], 7)
    ensures O.SourceCandle(rows, 8, Bullish, 5) == Some(7)
  {
    assert O.Opposes(rows[7], Bullish);
  }

  lemma {:induction false} BodyIsStrong(rows: seq<O.ObRow>)
    requires |rows| == 10 && Reads(rows[8], 8)
    ensures O.StrongBody(rows[8], Bullish, 0.0)
  {
    assert O.BodyRatio(15.0, 24.0, 14.0, 23.0) == 0.8;
  }

  lemma {:induction false} BornIs(rows: seq<O.ObRow>, kinds: set<EventKind>, id: nat)
    requires |rows| == 10 && Reads(rows[7], 7) && Reads(rows[8], 8) && CHoCH in kinds
    ensures O.Born(rows, 8, Enabling(kinds).blocks, id) == Some(BORN.(shape := SHAPE.(id := id)))
  {
    hide O.SourceCandle, O.StrongBody, O.SweptBetween;
    SourceIsRow7(rows);
    BodyIsStrong(rows);
    assert O.Displacement(rows[7], 23.0, Bullish) == 12.5;
  }

  lemma {:induction false} NothingToSurvey(rows: seq<O.ObRow>, position: nat)
    requires position < |rows|
    ensures
      var stage := O.Survey(O.Engine([], None), rows, position, OPTIONS.blocks);
      stage.aged == [] && stage.pending == None && !stage.skip
  {
  }

  lemma {:induction false} ReadsChoch(rows: seq<O.ObRow>)
    requires |rows| == 10 && Reads(rows[8], 8)
    ensures rows[8].event == Some(CHoCH)
  {
  }

  lemma {:induction false} BlockIsBorn(rows: seq<O.ObRow>)
    requires |rows| == 10 && Reads(rows[7], 7) && Reads(rows[8], 8)
    ensures O.Process(O.Engine([], None), rows, 8, OPTIONS.blocks) == O.Engine([BORN], None)
  {
    hide O.Survey, O.Born, Reads;
    NothingToSurvey(rows, 8);
    BornIs(rows, {CHoCH}, 1);
    ReadsChoch(rows);
  }

  lemma {:induction false} BlockIsTouched(rows: seq<O.ObRow>)
    requires |rows| == 10 && Reads(rows[9], 9)
    ensures O.Process(O.Engine([BORN], None), rows, 9, OPTIONS.blocks) == O.Engine([BLOCK], None)
  {
    assert O.Priced(BORN, rows[9], 9, O.Clearance(OPTIONS.blocks)) == BLOCK;
    assert O.PricedAll([BORN], rows[9], 9, O.Clearance(OPTIONS.blocks)) == [BLOCK];
    assert O.CascadedAll([BLOCK], rows[9], 9) == [BLOCK];
    assert O.AgedAll([BLOCK], 9, None) == [BLOCK];
  }

  lemma {:induction false} BlocksAre()
    ensures Pipeline.Blocks(SERIES, OPTIONS) == [BLOCK]
  {
    hide O.Process, Pipeline.ObRows, Reads;
    NoBlocksYet(8);
    ObRowReads(7);
    ObRowReads(8);
    ObRowReads(9);
    BlockIsBorn(ObRows());
    BlockIsTouched(ObRows());
    assert O.EngineAt(ObRows(), OPTIONS.blocks, 9) == O.Engine([BORN], None);
  }

  // ----- The proposal -----

  function Outs(): (outs: seq<S.OutRow>)
    ensures |outs| == 10
  {
    S.Run(Pipeline.SwingRows(SERIES, OPTIONS), 0.1)
  }

  lemma {:induction false} OutsAre(p: nat)
    requires p < 10
    ensures
      var o, e := Outs()[p], EventAt(p);
      && o.event == (if e.Some? then Some(e.value.kind) else None)
      && o.direction == (if e.Some? then Some(e.value.dir) else None)
  {
    hide S.OutAt, EventAt;
    OutIs(p);
  }

  const CHOCH := MarketEvent(OfStructure(CHoCH), 8, Some(Bullish))

  const SWEPT := MarketEvent(OfLiquidity(Q.PoolSwept), 7, Some(Bullish))

  /** The only cycle end of the series is the CHoCH of row 8. */
  lemma {:induction false} CycleEndIs(events: seq<MarketEvent>, e: MarketEvent)
    requires Reports(events, Outs()) && e in events && EndsCycle(e)
    ensures e == CHOCH
  {
    hide Outs;
    OutsAre(e.row);
  }

  lemma {:induction false} ChochIsReported(events: seq<MarketEvent>)
    requires Reports(events, Outs())
    ensures CHOCH in events
  {
    hide Outs;
    OutsAre(8);
    assert Reported(Outs()[8], 8) == CHOCH;
  }

  lemma {:induction false} SweepIsItem(events: seq<Q.LiqEvent>)
    requires SWEEP in events
    ensures SWEPT in LiquidityItems(events)
  {
    var i :| 0 <= i < |events| && events[i] == SWEEP;
    assert LiquidityItems(events)[i] == SWEPT;
  }

  // What the selectors find in any arrangement of the events.

  lemma {:induction false} ChochIsSelected(events: seq<MarketEvent>)
    requires Reports(events, Outs())
    ensures
      var found := EvaluateChoch(Some(Bullish), events, Bullish);
      found.Some? && events[found.value].row == 8
  {
    ChochIsReported(events);
    hide Outs, EvaluateChoch;
    var found := EvaluateChoch(Some(Bullish), events, Bullish);
    assert IsChoch(CHOCH, Bullish);
    CycleEndIs(events, events[found.value]);
    hide Reports;
  }

  lemma {:induction false} SweepIsSelected(events: seq<MarketEvent>)
    requires Reports(events, Outs()) && SWEPT in events
    ensures EvaluateSweep(events, Bullish, 8).Some?
  {
    forall e | e in events && EndsCycle(e) ensures e == CHOCH {
      CycleEndIs(events, e);
    }
    hide Outs, Reports, EvaluateSweep, CycleStart;
    assert CycleStart(events, 8) == 0;
    assert IsSweep(SWEPT, Bullish);
  }

  lemma {:induction false} TriggerIsSelected(a: Analysis)
    requires CHOCH in a.events && SWEPT in a.events && |a.closes| == 10
    ensures EvaluateTrigger(a, Bullish, 10) == Some(a.closes[9])
  {
    hide EvaluateTrigger;
    assert IsChoch(CHOCH, Bullish) && IsSweep(SWEPT, Bullish);
    assert |a.closes| - 10 <= SWEPT.row <= CHOCH.row;
  }

  // The kinds of event that make blocks change nothing before the block engine.

  lemma {:induction false} SameColumns(kinds: set<EventKind>)
    ensures Pipeline.SwingRows(SERIES, Enabling(kinds)) == Pipeline.SwingRows(SERIES, OPTIONS)
    ensures Pipeline.LiqRows(SERIES, Enabling(kinds)) == LiqRows()
    ensures Pipeline.ObRows(SERIES, Enabling(kinds)) == ObRows()
  {
    hide SwingRowAt, S.OutAt, Q.CellsAt;
    assert Pipeline.LiqRows(SERIES, Enabling(kinds)) == LiqRows();
  }

  function SampleAnalysis(kinds: set<EventKind>): Analysis { AnalysisOf(SERIES, Enabling(kinds)) }

  function SampleBlocks(kinds: set<EventKind>): seq<O.Block> { Pipeline.Blocks(SERIES, Enabling(kinds)) }

  /** The series serves both lower timeframes. */
  function Sample(kinds: set<EventKind>): Inputs {
    Inputs(true, 0, 10000.0, Some(Bullish), Some(Bullish), SampleAnalysis(kinds), SampleAnalysis(kinds),
           10, 1.0, 2.0, SPEC)
  }

  const SPEC := P.Spec(1.0, 25.0, 0.5, 10.0, 0.5)

  lemma {:induction false} SampleParts(kinds: set<EventKind>)
    ensures
      var a := SampleAnalysis(kinds);
      && a.trend == Some(Bullish) && a.blocks == SampleBlocks(kinds)
      && |a.closes| == 10 && a.closes[9] == 14.5
      && Reports(a.events, Outs()) && SWEPT in a.events
  {
    hide S.OutAt, L.Logged, Q.EventsUpTo, O.EventsUpTo, StructureItems, LiquidityItems, BlockItems, Pipeline.Blocks,
         Reports, Pipeline.SwingRows, Pipeline.LiqRows, Pipeline.ObRows;
    SameColumns(kinds);
    AnalysisOfAnalyses(SERIES, Enabling(kinds));
    hide Analyses;
    AnalysisReports(SampleAnalysis(kinds), SERIES, Enabling(kinds));
    OutIs(9);
    SweepIsEmitted();
    SweepIsItem(Q.EventsUpTo(LiqRows(), OPTIONS.liquidity, 10));
  }

  /** The setup, when the first block of the run is linked to the CHoCH. */
  lemma {:induction false} SampleSetup(kinds: set<EventKind>, b: O.Block)
    requires |SampleBlocks(kinds)| > 0 && SampleBlocks(kinds)[0] == b && Linked(b, Bullish, 8)
    ensures
      var inp := Sample(kinds);
      ChochOf(inp) == Some(8) && SweepOf(inp).Some? && BlockOf(inp) == Some(b) && EntryOf(inp) == Some(14.5)
  {
    hide SampleAnalysis, SampleBlocks, Outs, Reports, EvaluateChoch, EvaluateSweep, EvaluateTrigger, Linked;
    SampleParts(kinds);
    var a := SampleAnalysis(kinds);
    ChochIsSelected(a.events);
    SweepIsSelected(a.events);
    ChochIsReported(a.events);
    TriggerIsSelected(a);
    assert FirstLinked(SampleBlocks(kinds), Bullish, 8, 0) == Some(0);
  }

  lemma {:induction false} SampleSize()
    ensures Sized(P.CalculatePositionSize(P.Request(10000.0, 1.0, 14.5, 10.5, SPEC)))
  {
    var r := P.Request(10000.0, 1.0, 14.5, 10.5, SPEC);
    assert P.RawSize(r) == 1.0;
    assert P.Steps(r) == 2;
    assert P.Size(2, 0.5) == 1.0;
    assert P.Round8(1.0) == 1.0;
  }

  /** The block behind a setup of the sample supports an entry at 14.5. */
  predicate Tradable(b: O.Block) {
    && Linked(b, Bullish, 8) && Life.Retraced(b.life) && InEntryZone(b.shape, 14.5)
    && P.StructuralLevels(Bullish, 14.5, b.shape.distal, 2.0).Success?
    && Sized(P.CalculatePositionSize(P.Request(10000.0, 1.0, 14.5, b.shape.distal, SPEC)))
  }

  lemma {:induction false} SampleClears(kinds: set<EventKind>, b: O.Block)
    requires |SampleBlocks(kinds)| > 0 && SampleBlocks(kinds)[0] == b && Tradable(b)
    ensures ClearsBefore(Sample(kinds), ALL)
  {
    hide ChochOf, SweepOf, BlockOf, EntryOf, P.CalculatePositionSize, P.StructuralLevels, InEntryZone, Life.Retraced,
         SampleAnalysis, SampleBlocks, Linked;
    var inp := Sample(kinds);
    SampleSetup(kinds, b);
    assert ClearsBefore(inp, DEMO_ACCOUNT);
    hide ClearsBefore;
    Onward(inp, DEMO_ACCOUNT);
    Onward(inp, NO_OPEN_POSITION);
    Onward(inp, BIAS);
    Onward(inp, AGREEMENT);
    Onward(inp, CHOCH_FOUND);
    Onward(inp, SWEEP_FOUND);
    Onward(inp, BLOCK_FOUND);
    Onward(inp, RETRACEMENT);
    Onward(inp, LOCAL_TRIGGER);
    Onward(inp, ENTRY_ZONE);
    Onward(inp, RISK_LEVELS);
    Onward(inp, TRADABLE_SIZE);
  }

  lemma {:induction false} OwnBlockIsTradable()
    ensures Tradable(BLOCK)
  {
    hide P.CalculatePositionSize;
    SampleSize();
  }

  /** The series is well formed, its analysis is the sample's, and that clears every
      gate, on the CHoCH of row 8 and on block `b`. */
  predicate ProposedOn(kinds: set<EventKind>, b: O.Block) {
    var inp := Sample(kinds);
    && WellFormed(SERIES) && Analyses(inp.m15, SERIES, Enabling(kinds)) && Analyses(inp.m5, SERIES, Enabling(kinds))
    && ClearsBefore(inp, ALL) && ChochOf(inp) == Some(8) && BlockOf(inp) == Some(b)
  }

  lemma {:induction false} SampleIsAnalysed(kinds: set<EventKind>)
    ensures WellFormed(SERIES) && Analyses(SampleAnalysis(kinds), SERIES, Enabling(kinds))
  {
    hide Analyses, AnalysisOf;
    AnalysisOfAnalyses(SERIES, Enabling(kinds));
  }

  lemma {:induction false} SampleIsProposed(kinds: set<EventKind>, b: O.Block)
    requires |SampleBlocks(kinds)| > 0 && SampleBlocks(kinds)[0] == b && Tradable(b)
    ensures ProposedOn(kinds, b)
  {
    hide Analyses, ClearsBefore, ChochOf, BlockOf, Linked, AnalysisOf, SampleAnalysis, SampleBlocks, WellFormed,
         Tradable;
    SampleIsAnalysed(kinds);
    SampleClears(kinds, b);
    TradableIsLinked(b);
    SampleSetup(kinds, b);
  }

  lemma {:induction false} TradableIsLinked(b: O.Block)
    requires Tradable(b)
    ensures Linked(b, Bullish, 8)
  {
    hide Linked;
  }

  lemma {:induction false} OwnBlockIsFirst()
    ensures SampleBlocks({CHoCH}) == [BLOCK]
  {
    hide Pipeline.Blocks;
    BlocksAre();
  }

  /** A well-formed series whose analysis leads to a proposal, on a block of the CHoCH
      to which price returns on row 9. */
  lemma {:induction false} SeriesIsProposed()
    ensures ProposedOn({CHoCH}, BLOCK) && BLOCK.life.mitigatedIndex == Some(9)
  {
    hide ProposedOn, Tradable, SampleBlocks;
    OwnBlockIsFirst();
    OwnBlockIsTradable();
    SampleIsProposed({CHoCH}, BLOCK);
  }
}
