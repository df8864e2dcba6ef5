/** What holds of every proposal: its prices, its size, and the run behind it. */
module Proposals {
  import opened Domain
  import O = OrderBlocks
  import Life = OrderBlockLife
  import S = Structure
  import L = StructureLog
  import Q = Liquidity
  import Geometry = BlockGeometry
  import P = PositionSize
  import Pipeline
  import Provisional
  import opened Selectors
  import opened Signal

  // ----- The entry zone -----

  /** In a block with room between its edges the proximal side tells the direction. */
  lemma {:induction false} ProximalTellsDirection(s: O.Shape, rows: seq<O.ObRow>)
    requires Geometry.Anchored(s, rows)
    ensures s.proximal >= s.distal <==> s.dir == Bullish
  {
  }

  /** The zone runs from the distal edge to a quarter ATR beyond the proximal one. */
  lemma {:induction false} ZoneIsOneSided(s: O.Shape, rows: seq<O.ObRow>, entry: real)
    requires Geometry.Anchored(s, rows)
    ensures InEntryZone(s, entry) <==>
              if s.dir == Bullish then s.distal <= entry <= s.proximal + Tolerance(s)
              else s.proximal - Tolerance(s) <= entry <= s.distal
  {
  }

  /** An entry inside the zone of a priced block has no levels only at the distal
      edge itself, or when a price or the ratio is not positive. */
  lemma {:induction false} LevelsFailAtTheEdge(s: O.Shape, rows: seq<O.ObRow>, entry: real, ratio: real)
    requires Geometry.Anchored(s, rows) && InEntryZone(s, entry)
    ensures P.StructuralLevels(s.dir, entry, s.distal, ratio).Failure? <==>
              entry == s.distal || entry <= 0.0 || s.distal <= 0.0 || ratio <= 0.0
  {
    ZoneIsOneSided(s, rows, entry);
  }

  // ----- Prices and size -----

  predicate SoundPrices(p: Proposal, s: O.Shape, ratio: real) {
    if p.dir == Bullish then
      && s.low == p.stop < p.entry < p.takeProfit
      && p.entry - p.stop <= (s.high - s.low) + Tolerance(s)
      && p.takeProfit - p.entry == ratio * (p.entry - p.stop)
    else
      && p.takeProfit < p.entry < p.stop == s.high
      && p.stop - p.entry <= (s.high - s.low) + Tolerance(s)
      && p.entry - p.takeProfit == ratio * (p.stop - p.entry)
  }

  lemma {:induction false} LevelsAreSound(d: Direction, s: O.Shape, rows: seq<O.ObRow>, entry: real, ratio: real,
                                        size: real)
    requires Geometry.Anchored(s, rows) && s.dir == d && InEntryZone(s, entry)
    requires P.StructuralLevels(d, entry, s.distal, ratio).Success?
    ensures
      var takeProfit := P.StructuralLevels(d, entry, s.distal, ratio).value.takeProfit;
      SoundPrices(Proposal(d, entry, s.distal, takeProfit, size), s, ratio)
  {
    ZoneIsOneSided(s, rows, entry);
    hide InEntryZone;
  }

  /** What the loss at the stop may exceed the risk amount by, per lot and unit of loss. */
  function Slack(spec: P.Spec): real { P.EPSILON * spec.volumeStep + P.HALF_UNIT }

  lemma {:induction false} BlockIsLinked(inp: Inputs) returns (i: nat)
    requires BlockOf(inp).Some?
    ensures inp.h4.Some? && ChochOf(inp).Some?
    ensures i < |inp.m15.blocks| && BlockOf(inp) == Some(inp.m15.blocks[i])
    ensures Linked(inp.m15.blocks[i], inp.h4.value, ChochOf(inp).value)
  {
    i := FirstLinked(inp.m15.blocks, inp.h4.value, ChochOf(inp).value, 0).value;
    hide EvaluateChoch;
  }

  /** The stop is the block's far edge, the reward exactly `ratio` times the risk. */
  lemma {:induction false} PricesAreSound(inp: Inputs, rows: seq<O.ObRow>)
    requires ClearsBefore(inp, ALL) && BlockOf(inp).Some? && Geometry.Anchored(BlockOf(inp).value.shape, rows)
    ensures SoundPrices(ProposalOf(inp), BlockOf(inp).value.shape, inp.ratio)
  {
    PricesCleared(inp);
    var i := BlockIsLinked(inp);
    var s, entry, size := BlockOf(inp).value.shape, EntryOf(inp).value,
      P.CalculatePositionSize(RequestOf(inp)).value.size;
    hide ClearsBefore, BlockOf, EntryOf, InEntryZone, P.StructuralLevels, P.CalculatePositionSize,
         Geometry.Anchored, SoundPrices;
    LevelsAreSound(inp.h4.value, s, rows, entry, inp.ratio, size);
  }

  predicate SoundSize(size: real, r: P.Request)
    requires P.Refusal(r).None?
  {
    && r.spec.volumeMin <= size <= r.spec.volumeMax
    && size * P.LossPerLot(r) <= P.RiskAmount(r) + Slack(r.spec) * P.LossPerLot(r)
  }

  lemma {:induction false} SizesAreSound(r: P.Request)
    requires Sized(P.CalculatePositionSize(r))
    ensures P.Refusal(r).None? && SoundSize(P.CalculatePositionSize(r).value.size, r)
  {
    P.SufficientSizeRespectsRisk(r);
    SizingAccepts(r);
    hide P.Refusal, P.CalculatePositionSize, P.LossPerLot, P.RiskAmount;
  }

  /** The size is tradable and its loss at the stop within the risk amount, up to
      the rounding slack. */
  lemma {:induction false} SizeIsSound(inp: Inputs)
    requires ClearsBefore(inp, ALL)
    ensures Placed(inp) && P.Refusal(RequestOf(inp)).None? && SoundSize(ProposalOf(inp).size, RequestOf(inp))
  {
    PricesCleared(inp);
    SizesAreSound(RequestOf(inp));
    hide ClearsBefore, BlockOf, EntryOf, P.CalculatePositionSize, SoundSize, P.Refusal, LevelsOf;
  }

  lemma {:induction false} SizingAccepts(r: P.Request)
    requires P.CalculatePositionSize(r).Success?
    ensures P.Refusal(r).None? && P.CalculatePositionSize(r).value.riskAmount == P.RiskAmount(r)
  {
    hide P.Refusal, P.Stepped, P.RawSize;
  }

  lemma {:induction false} LevelsRuleOutPriceErrors(d: Direction, ratio: real, r: P.Request)
    requires P.StructuralLevels(d, r.entry, r.stop, ratio).Success? && P.CalculatePositionSize(r).Failure?
    ensures P.CalculatePositionSize(r).error !in {P.BadPrices, P.NoStopDistance}
  {
    hide P.RawSize, P.Stepped, P.LossPerLot, P.RiskAmount;
  }

  lemma {:induction false} LevelsCleared(inp: Inputs)
    requires ClearsBefore(inp, TRADABLE_SIZE)
    ensures Placed(inp) && LevelsOf(inp).Success? && inp.h4.Some?
  {
    hide ClearsBefore, BlockOf, EntryOf, LevelsOf, P.CalculatePositionSize;
    ClearsEach(inp, TRADABLE_SIZE, BIAS);
    ClearsEach(inp, TRADABLE_SIZE, RISK_LEVELS);
  }

  /** Once the levels stand, sizing can only fail on the account or the symbol. */
  lemma {:induction false} RaisedOnAccountOrSymbol(inp: Inputs, error: P.SizeError)
    requires FirstFailure(inp, Raised(error))
    ensures error !in {P.BadPrices, P.NoStopDistance}
  {
    hide ClearsBefore, BlockOf, EntryOf, P.CalculatePositionSize, P.StructuralLevels;
    LevelsCleared(inp);
    LevelsRuleOutPriceErrors(inp.h4.value, inp.ratio, RequestOf(inp));
  }

  // ----- From candles to a proposal -----

  /** The analysis of one candle series, its events in any arrangement. */
  predicate Analyses(a: Analysis, candles: seq<Candle>, opt: Pipeline.Options) {
    var outs := S.Run(Pipeline.SwingRows(candles, opt), opt.minimumBreak);
    && a.trend == (if candles == [] then None else outs[|outs| - 1].trend)
    && a.blocks == Pipeline.Blocks(candles, opt)
    && multiset(a.events) == multiset(
         StructureItems(L.Logged(outs, |outs|))
         + LiquidityItems(Q.EventsUpTo(Pipeline.LiqRows(candles, opt), opt.liquidity, |candles|))
         + BlockItems(O.EventsUpTo(Pipeline.ObRows(candles, opt), opt.blocks, |candles|)))
  }

  function Closes(candles: seq<Candle>): (closes: seq<real>)
    ensures |closes| == |candles|
  {
    seq(|candles|, i requires 0 <= i < |candles| => candles[i].close)
  }

  /** The analysis with its events engine by engine. */
  function AnalysisOf(candles: seq<Candle>, opt: Pipeline.Options): Analysis {
    var outs := S.Run(Pipeline.SwingRows(candles, opt), opt.minimumBreak);
    Analysis(
      if candles == [] then None else outs[|outs| - 1].trend,
      StructureItems(L.Logged(outs, |outs|))
      + LiquidityItems(Q.EventsUpTo(Pipeline.LiqRows(candles, opt), opt.liquidity, |candles|))
      + BlockItems(O.EventsUpTo(Pipeline.ObRows(candles, opt), opt.blocks, |candles|)),
      Pipeline.Blocks(candles, opt), Closes(candles))
  }

  lemma {:induction false} AnalysisOfAnalyses(candles: seq<Candle>, opt: Pipeline.Options)
    ensures Analyses(AnalysisOf(candles, opt), candles, opt)
  {
    hide S.OutAt, L.Logged, Q.EventsUpTo, O.EventsUpTo, StructureItems, LiquidityItems, BlockItems, Pipeline.Blocks;
  }

  predicate WellFormed(candles: seq<Candle>) {
    forall c :: c in candles ==> c.low <= c.open <= c.high && c.low <= c.close <= c.high
  }

  lemma {:induction false} RowsAreFormed(candles: seq<Candle>, opt: Pipeline.Options)
    requires WellFormed(candles)
    ensures Geometry.AllFormed(Pipeline.ObRows(candles, opt))
  {
    hide Pipeline.OutAt, Pipeline.LiqCellsAt;
  }

  lemma {:induction false} AnalysisReports(a: Analysis, candles: seq<Candle>, opt: Pipeline.Options)
    requires Analyses(a, candles, opt)
    ensures Reports(a.events, S.Run(Pipeline.SwingRows(candles, opt), opt.minimumBreak))
  {
    hide StructureItems, LiquidityItems, BlockItems, Reports, L.Logged, Q.EventsUpTo, O.EventsUpTo, S.OutAt;
    StreamsReport(a.events, S.Run(Pipeline.SwingRows(candles, opt), opt.minimumBreak),
                  Q.EventsUpTo(Pipeline.LiqRows(candles, opt), opt.liquidity, |candles|),
                  O.EventsUpTo(Pipeline.ObRows(candles, opt), opt.blocks, |candles|));
  }

  lemma {:induction false} TrendIsLastRows(rows: seq<S.SwingRow>, minimumBreak: real)
    ensures
      var outs := S.Run(rows, minimumBreak);
      S.TrendOf(S.At(rows, minimumBreak, |rows|).cycle) == if rows == [] then None else outs[|outs| - 1].trend
  {
    hide S.Advanced;
  }

  lemma {:induction false} TrendIsAnalysed(a: Analysis, candles: seq<Candle>, opt: Pipeline.Options)
    requires Analyses(a, candles, opt)
    ensures a.trend == S.TrendOf(S.At(Pipeline.SwingRows(candles, opt), opt.minimumBreak, |candles|).cycle)
  {
    var rows := Pipeline.SwingRows(candles, opt);
    hide StructureItems, LiquidityItems, BlockItems, L.Logged, Q.EventsUpTo, O.EventsUpTo, S.OutAt, S.At,
         Pipeline.LiqRows, Pipeline.ObRows;
    TrendIsLastRows(rows, opt.minimumBreak);
  }

  /** The setup rests on the last CHoCH of the series. */
  lemma {:induction false} SetupIsCurrent(candles: seq<Candle>, opt: Pipeline.Options, inp: Inputs)
    requires Analyses(inp.m15, candles, opt)
    ensures
      var outs := S.Run(Pipeline.SwingRows(candles, opt), opt.minimumBreak);
      ChochOf(inp).Some? ==>
        && LastChoch(outs, |outs|) == ChochOf(inp)
        && outs[ChochOf(inp).value].direction == inp.h4
  {
    hide Analyses, S.OutAt, S.At, Reports, EvaluateChoch;
    AnalysisReports(inp.m15, candles, opt);
    TrendIsAnalysed(inp.m15, candles, opt);
    if inp.h4.Some? {
      ChochIsCurrent(inp.m15.events, Pipeline.SwingRows(candles, opt), opt.minimumBreak, inp.h4.value);
    }
  }

  /** Where the CHoCH at `r`, its MSS, its pullback and its block stand. */
  predicate Grounded(rows: seq<S.SwingRow>, minimumBreak: real, events: seq<MarketEvent>, source: O.SourceId,
                     r: nat, m: nat, h: nat, d: Direction)
    requires r < |rows|
  {
    && CycleStart(events, r) <= m && Matures(rows, minimumBreak, m, h, r, d)
    && source in {O.SourceId(CHoCH, r), O.SourceId(MSS, m)}
  }

  /** The block was created by that CHoCH or by the MSS it resolved, and the sweep
      window holds the MSS and the pullback that confirmed it. */
  lemma {:induction false} SetupIsGrounded(rows: seq<S.SwingRow>, minimumBreak: real, events: seq<MarketEvent>,
                                           ob: seq<O.ObRow>, cfg: O.Settings, i: nat, r: nat, d: Direction)
    returns (m: nat, h: nat)
    requires Reports(events, S.Run(rows, minimumBreak)) && Provisional.Follows(ob, rows, minimumBreak) && r < |rows|
    requires S.Run(rows, minimumBreak)[r].event == Some(CHoCH) && S.Run(rows, minimumBreak)[r].direction == Some(d)
    requires i < |O.EngineAt(ob, cfg, |ob|).blocks| && Linked(O.EngineAt(ob, cfg, |ob|).blocks[i], d, r)
    ensures Grounded(rows, minimumBreak, events, O.EngineAt(ob, cfg, |ob|).blocks[i].shape.source, r, m, h, d)
  {
    hide S.OutAt, O.EngineAt, Reports, CycleStart, Linked;
    m, h := ShiftOfChoch(rows, minimumBreak, r, d);
    WindowReachesBack(events, S.Run(rows, minimumBreak), m, r);
    LinkedBlockIsOfTheChoch(rows, minimumBreak, ob, cfg, i, r, d);
    var source := O.EngineAt(ob, cfg, |ob|).blocks[i].shape.source;
    if source != O.SourceId(CHoCH, r) {
      ResolvedShiftIsUnique(rows, minimumBreak, source.row, m, r, d);
    }
    hide Provisional.ConfirmedAt, Matures;
  }

  /** No row after the block's creation, up to and including `r`, has a fate for it. */
  predicate UntouchedBy(s: O.Shape, ob: seq<O.ObRow>, cfg: O.Settings, r: nat)
    requires r < |ob|
  {
    s.created <= r && Life.FirstFate(s, ob, cfg, s.created + 1, r + 1).None?
  }

  /** Price came back on row `k`, the first time anything happened to the block, and
      after row `r` exactly when the block was untouched by then. */
  predicate ReturnsOn(k: Option<nat>, s: O.Shape, ob: seq<O.ObRow>, cfg: O.Settings, r: nat)
    requires r < |ob|
  {
    && s.created < |ob| && k.Some? && k == Life.FirstFate(s, ob, cfg, s.created + 1, |ob|)
    && (k.value > r <==> UntouchedBy(s, ob, cfg, r))
    && (s.source == O.SourceId(CHoCH, r) ==> k.value > r)
  }

  lemma {:induction false} ReturnIsDated(ob: seq<O.ObRow>, cfg: O.Settings, i: nat, r: nat)
    requires r < |ob| && i < |O.EngineAt(ob, cfg, |ob|).blocks|
    requires var b := O.EngineAt(ob, cfg, |ob|).blocks[i]; b.life.mitigated && b.shape.created <= r
    requires
      var s := O.EngineAt(ob, cfg, |ob|).blocks[i].shape;
      s.source.row == s.created
    ensures
      var b := O.EngineAt(ob, cfg, |ob|).blocks[i];
      ReturnsOn(b.life.mitigatedIndex, b.shape, ob, cfg, r)
  {
    hide O.EngineAt, Life.FateOn;
    Life.MitigatedOnce(ob, cfg, |ob|, i);
  }

  /** Every proposal over well-formed candles rests on the last CHoCH of its series,
      on a sweep of that CHoCH's cycle and on a block of that CHoCH or its MSS, into
      which price has returned: after the CHoCH if the block is the CHoCH's own, and
      otherwise exactly if nothing had happened to the block by the CHoCH's row. */
  lemma {:induction false} ProposalRestsOnTheRun(candles: seq<Candle>, opt: Pipeline.Options, inp: Inputs)
    returns (m: nat, h: nat)
    requires Analyses(inp.m15, candles, opt) && WellFormed(candles) && ClearsBefore(inp, ALL)
    ensures BlockOf(inp).Some? && ChochOf(inp).Some? && SweepOf(inp).Some? && inp.h4.Some?
    ensures
      var rows, r := Pipeline.SwingRows(candles, opt), ChochOf(inp).value;
      var s, l := BlockOf(inp).value.shape, BlockOf(inp).value.life;
      && LastChoch(S.Run(rows, opt.minimumBreak), |rows|) == Some(r)
      && Grounded(rows, opt.minimumBreak, inp.m15.events, s.source, r, m, h, inp.h4.value)
      && CycleStart(inp.m15.events, r) <= SweepOf(inp).value <= r
      && Geometry.Anchored(s, Pipeline.ObRows(candles, opt)) && l.mitigated && Geometry.MeasuredIn(s, l)
      && ReturnsOn(l.mitigatedIndex, s, Pipeline.ObRows(candles, opt), opt.blocks, r)
  {
    var rows, ob := Pipeline.SwingRows(candles, opt), Pipeline.ObRows(candles, opt);
    hide Analyses, WellFormed, ClearsBefore, BlockOf, EntryOf, Reports, Linked, S.OutAt, O.EngineAt,
         Geometry.Anchored, Geometry.MeasuredIn, Grounded, CycleStart, EvaluateChoch, EvaluateSweep, ReturnsOn;
    SetupCleared(inp);
    var i := BlockIsLinked(inp);
    SetupIsCurrent(candles, opt, inp);
    AnalysisReports(inp.m15, candles, opt);
    BlocksAreTheRuns(inp.m15, candles, opt);
    Pipeline.BlocksFollowStructure(candles, opt);
    m, h := SetupIsGrounded(rows, opt.minimumBreak, inp.m15.events, ob, opt.blocks, i, ChochOf(inp).value,
                            inp.h4.value);
    RowsAreFormed(candles, opt);
    Geometry.BlocksAreAnchored(ob, opt.blocks, |ob|, i);
    Geometry.MitigationsAreInside(ob, opt.blocks, |ob|, i);
    SourceIsCreation(rows, opt.minimumBreak, ob, opt.blocks, i);
    GroundedBlockIsEarly(rows, opt.minimumBreak, inp.m15.events, ob, opt.blocks, i, ChochOf(inp).value, m, h,
                         inp.h4.value);
    ReturnIsDated(ob, opt.blocks, i, ChochOf(inp).value);
  }

  lemma {:induction false} SourceIsCreation(rows: seq<S.SwingRow>, minimumBreak: real, ob: seq<O.ObRow>,
                                            cfg: O.Settings, i: nat)
    requires Provisional.Follows(ob, rows, minimumBreak) && i < |O.EngineAt(ob, cfg, |ob|).blocks|
    ensures var s := O.EngineAt(ob, cfg, |ob|).blocks[i].shape; s.source.row == s.created
  {
    hide O.EngineAt, S.At, Provisional.Placed;
    Provisional.RunsAreCoupled(rows, minimumBreak, ob, cfg, |ob|);
    Provisional.SettledBlock(O.EngineAt(ob, cfg, |ob|), S.At(rows, minimumBreak, |ob|).cycle, rows, minimumBreak, |ob|,
                             i);
  }

  lemma {:induction false} GroundedBlockIsEarly(rows: seq<S.SwingRow>, minimumBreak: real, events: seq<MarketEvent>,
                                                ob: seq<O.ObRow>, cfg: O.Settings, i: nat, r: nat, m: nat, h: nat,
                                                d: Direction)
    requires r < |rows| && i < |O.EngineAt(ob, cfg, |ob|).blocks|
    requires Grounded(rows, minimumBreak, events, O.EngineAt(ob, cfg, |ob|).blocks[i].shape.source, r, m, h, d)
    ensures O.EngineAt(ob, cfg, |ob|).blocks[i].shape.source.row <= r
  {
    hide O.EngineAt, CycleStart;
  }

  lemma {:induction false} BlocksAreTheRuns(a: Analysis, candles: seq<Candle>, opt: Pipeline.Options)
    requires Analyses(a, candles, opt)
    ensures |Pipeline.ObRows(candles, opt)| == |candles|
    ensures a.blocks == O.EngineAt(Pipeline.ObRows(candles, opt), opt.blocks, |candles|).blocks
  {
    hide StructureItems, LiquidityItems, BlockItems, L.Logged, Q.EventsUpTo, O.EventsUpTo, S.OutAt, O.EngineAt;
  }

  lemma {:induction false} SetupCleared(inp: Inputs)
    requires ClearsBefore(inp, ALL)
    ensures BlockOf(inp).Some? && BlockOf(inp).value.life.mitigated
    ensures ChochOf(inp).Some? && SweepOf(inp).Some? && inp.h4.Some?
    ensures CycleStart(inp.m15.events, ChochOf(inp).value) <= SweepOf(inp).value <= ChochOf(inp).value
  {
    hide ClearsBefore, FirstLinked, EvaluateTrigger, EvaluateChoch, EvaluateSweep, CycleStart;
    ClearsEach(inp, ALL, RETRACEMENT);
    ClearsEach(inp, ALL, SWEEP_FOUND);
  }

  /** So the geometry of every proposal follows from the candles alone. */
  lemma {:induction false} ProposalIsSoundFromCandles(candles: seq<Candle>, opt: Pipeline.Options, inp: Inputs)
    requires Analyses(inp.m15, candles, opt) && WellFormed(candles) && ClearsBefore(inp, ALL)
    ensures BlockOf(inp).Some? && SoundPrices(ProposalOf(inp), BlockOf(inp).value.shape, inp.ratio)
    ensures Placed(inp) && P.Refusal(RequestOf(inp)).None? && SoundSize(ProposalOf(inp).size, RequestOf(inp))
  {
    hide Analyses, WellFormed, ClearsBefore, BlockOf, EntryOf, Geometry.Anchored, Geometry.MeasuredIn, Grounded,
         SoundPrices, SoundSize, P.Refusal, P.CalculatePositionSize, LevelsOf;
    var m, h := ProposalRestsOnTheRun(candles, opt, inp);
    PricesAreSound(inp, Pipeline.ObRows(candles, opt));
    SizeIsSound(inp);
  }
}
