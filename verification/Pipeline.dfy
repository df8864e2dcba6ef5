/** The engines in sequence, from candles to Order Block columns, and how little a
    longer series can change what a shorter one showed. */
module Pipeline {
  import opened Domain
  import Swings
  import S = Structure
  import Q = Liquidity
  import O = OrderBlocks
  import Provisional

  datatype Options = Options(
    left: nat, right: nat, minimumBreak: real, liquidity: Q.LiqSettings, blocks: O.Settings)

  function SwingRows(candles: seq<Candle>, opt: Options): seq<S.SwingRow> {
    Swings.SwingRows(candles, opt.left, opt.right)
  }

  function OutAt(candles: seq<Candle>, opt: Options, p: nat): S.OutRow
    requires p < |candles|
  {
    S.OutAt(SwingRows(candles, opt), opt.minimumBreak, p)
  }

  function LiqRow(c: Candle, swing: S.SwingRow, o: S.OutRow): Q.LiqRow {
    Q.LiqRow(Some(c.high), Some(c.low), Some(c.close), o.tag, swing.swingHighPrice, swing.swingLowPrice)
  }

  function LiqRows(candles: seq<Candle>, opt: Options): seq<Q.LiqRow> {
    seq(|candles|, p requires 0 <= p < |candles| =>
      LiqRow(candles[p], Swings.SwingRowAt(candles, opt.left, opt.right, p), OutAt(candles, opt, p)))
  }

  function LiqCellsAt(candles: seq<Candle>, opt: Options, p: nat): Q.LiqCells
    requires p < |candles|
  {
    Q.CellsAt(LiqRows(candles, opt), opt.liquidity, p)
  }

  function ObRow(c: Candle, o: S.OutRow, cells: Q.LiqCells): O.ObRow {
    O.ObRow(Some(c.open), Some(c.high), Some(c.low), Some(c.close), c.atr,
            o.event, o.direction, o.brokenLevel, o.invalidatedOrigin,
            if cells.swept.Some? then Some(cells.swept.value.dir) else None)
  }

  function ObRows(candles: seq<Candle>, opt: Options): seq<O.ObRow> {
    seq(|candles|, p requires 0 <= p < |candles| =>
      ObRow(candles[p], OutAt(candles, opt, p), LiqCellsAt(candles, opt, p)))
  }

  function ObCellsAt(candles: seq<Candle>, opt: Options, p: nat): O.ObCells
    requires p < |candles|
  {
    O.CellsAt(ObRows(candles, opt), opt.blocks, p)
  }

  function Blocks(candles: seq<Candle>, opt: Options): seq<O.Block> {
    O.EngineAt(ObRows(candles, opt), opt.blocks, |candles|).blocks
  }

  lemma {:induction false} BlocksFollowStructure(candles: seq<Candle>, opt: Options)
    ensures Provisional.Follows(ObRows(candles, opt), SwingRows(candles, opt), opt.minimumBreak)
  {
    hide S.OutAt, Q.CellsAt;
  }

  // ----- What a row depends on -----

  predicate Agree<T(==)>(a: seq<T>, b: seq<T>, p: nat) {
    p <= |a| && p <= |b| && a[..p] == b[..p]
  }

  lemma {:induction false} AgreeShorter<T>(a: seq<T>, b: seq<T>, p: nat)
    requires 0 < p && Agree(a, b, p)
    ensures Agree(a, b, p - 1) && p <= |a| && p <= |b|
  {
    assert a[..p][..p - 1] == a[..p - 1] && b[..p][..p - 1] == b[..p - 1];
  }

  lemma {:induction false} StructureIsCausal(a: seq<S.SwingRow>, b: seq<S.SwingRow>, minimumBreak: real, p: nat)
    requires Agree(a, b, p)
    ensures S.At(a, minimumBreak, p) == S.At(b, minimumBreak, p)
  {
    hide S.Advanced;
    if p > 0 {
      assert a[..p][p - 1] == b[..p][p - 1] && a[..p][..p - 1] == a[..p - 1] && b[..p][..p - 1] == b[..p - 1];
      StructureIsCausal(a, b, minimumBreak, p - 1);
    }
  }

  lemma {:induction false} LiquidityIsCausal(a: seq<Q.LiqRow>, b: seq<Q.LiqRow>, cfg: Q.LiqSettings, p: nat)
    requires Agree(a, b, p)
    ensures Q.EngineAt(a, cfg, p) == Q.EngineAt(b, cfg, p)
  {
    hide Q.Process;
    if p > 0 {
      assert a[..p][p - 1] == b[..p][p - 1] && a[..p][..p - 1] == a[..p - 1] && b[..p][..p - 1] == b[..p - 1];
      LiquidityIsCausal(a, b, cfg, p - 1);
    }
  }

  lemma {:induction false} SourceIsCausal(a: seq<O.ObRow>, b: seq<O.ObRow>, d: Direction, from: nat, end: nat)
    requires from <= end && Agree(a, b, end)
    ensures O.LastOpposing(a, d, from, end) == O.LastOpposing(b, d, from, end)
    decreases end - from
  {
    hide O.Opposes;
    if from < end {
      assert a[..end][end - 1] == b[..end][end - 1] && a[..end][..end - 1] == a[..end - 1]
        && b[..end][..end - 1] == b[..end - 1];
      SourceIsCausal(a, b, d, from, end - 1);
    }
  }

  lemma {:induction false} SweepIsCausal(a: seq<O.ObRow>, b: seq<O.ObRow>, from: nat, end: nat, d: Direction)
    requires end < |a| && end < |b| && Agree(a, b, end + 1)
    ensures O.SweptBetween(a, from, end, d) == O.SweptBetween(b, from, end, d)
  {
    assert forall i :: 0 <= i <= end ==> a[i] == a[..end + 1][i] && b[i] == b[..end + 1][i];
  }

  lemma {:induction false} BirthIsCausal(a: seq<O.ObRow>, b: seq<O.ObRow>, p: nat, cfg: O.Settings, id: nat)
    requires p < |a| && p < |b| && Agree(a, b, p + 1)
    ensures O.Born(a, p, cfg, id) == O.Born(b, p, cfg, id)
  {
    assert a[..p + 1][p] == b[..p + 1][p] && a[..p + 1][..p] == a[..p] && b[..p + 1][..p] == b[..p];
    if a[p].dir.Some? {
      var d := a[p].dir.value;
      var from := if p < cfg.lookback then 0 else p - cfg.lookback;
      SourceIsCausal(a, b, d, from, p);
      var at := O.SourceCandle(a, p, d, cfg.lookback);
      if at.Some? {
        assert a[..p][at.value] == b[..p][at.value];
        SweepIsCausal(a, b, at.value, p, d);
      }
    }
    hide O.StrongBody, O.SweptBetween, O.LastOpposing;
  }

  lemma {:induction false} SurveyIsCausal(s: O.Engine, a: seq<O.ObRow>, b: seq<O.ObRow>, p: nat, cfg: O.Settings)
    requires p < |a| && p < |b| && Agree(a, b, p + 1)
    ensures O.Survey(s, a, p, cfg) == O.Survey(s, b, p, cfg)
  {
    assert a[..p + 1][p] == b[..p + 1][p] && a[..p + 1][..p] == a[..p] && b[..p + 1][..p] == b[..p];
    if a[p].dir.Some? {
      SourceIsCausal(a, b, a[p].dir.value, if p < cfg.lookback then 0 else p - cfg.lookback, p);
    }
    hide O.PricedAll, O.CascadedAll, O.AgedAll, O.Promoted, O.Promote, O.LastOpposing;
  }

  lemma {:induction false} RowIsCausal(s: O.Engine, a: seq<O.ObRow>, b: seq<O.ObRow>, p: nat, cfg: O.Settings)
    requires p < |a| && p < |b| && Agree(a, b, p + 1)
    ensures O.Process(s, a, p, cfg) == O.Process(s, b, p, cfg)
    ensures O.RowCells(s, a, p, cfg) == O.RowCells(s, b, p, cfg)
  {
    SurveyIsCausal(s, a, b, p, cfg);
    BirthIsCausal(a, b, p, cfg, |O.Survey(s, a, p, cfg).aged| + 1);
    assert a[..p + 1][p] == b[..p + 1][p];
    hide O.Survey, O.Born, O.Marked, O.ExistingEvents, O.ActiveCount, O.LastExpired;
  }

  lemma {:induction false} BlocksAreCausal(a: seq<O.ObRow>, b: seq<O.ObRow>, cfg: O.Settings, p: nat)
    requires Agree(a, b, p)
    ensures O.EngineAt(a, cfg, p) == O.EngineAt(b, cfg, p)
  {
    hide O.Process, Agree;
    if p > 0 {
      AgreeShorter(a, b, p);
      BlocksAreCausal(a, b, cfg, p - 1);
      RowIsCausal(O.EngineAt(a, cfg, p - 1), a, b, p - 1, cfg);
    }
  }

  // ----- Bounded repainting -----

  /** Swing confirmation looks `right` candles ahead; nothing else looks ahead. */
  lemma {:induction false} SwingsSettle(short: seq<Candle>, long: seq<Candle>, opt: Options, p: nat)
    requires short <= long && p + opt.right < |short|
    ensures Swings.SwingRowAt(short, opt.left, opt.right, p) == Swings.SwingRowAt(long, opt.left, opt.right, p)
  {
    assert forall i :: 0 <= i < |short| ==> short[i] == long[i];
  }

  lemma {:induction false} SwingRowsSettle(short: seq<Candle>, long: seq<Candle>, opt: Options, p: nat)
    requires short <= long && p + opt.right <= |short|
    ensures Agree(SwingRows(short, opt), SwingRows(long, opt), p)
  {
    var a, b := SwingRows(short, opt), SwingRows(long, opt);
    forall i | 0 <= i < p ensures a[i] == b[i] {
      SwingsSettle(short, long, opt, i);
    }
    hide Swings.SwingRowAt;
  }

  lemma {:induction false} StructureSettles(short: seq<Candle>, long: seq<Candle>, opt: Options, p: nat)
    requires short <= long && p + opt.right < |short|
    ensures OutAt(short, opt, p) == OutAt(long, opt, p)
  {
    SwingRowsSettle(short, long, opt, p);
    SwingsSettle(short, long, opt, p);
    StructureIsCausal(SwingRows(short, opt), SwingRows(long, opt), opt.minimumBreak, p);
    hide S.At, S.Written, Swings.SwingRowAt;
  }

  lemma {:induction false} LiqRowsSettle(short: seq<Candle>, long: seq<Candle>, opt: Options, p: nat)
    requires short <= long && p + opt.right <= |short|
    ensures Agree(LiqRows(short, opt), LiqRows(long, opt), p)
  {
    var a, b := LiqRows(short, opt), LiqRows(long, opt);
    forall i | 0 <= i < p ensures a[i] == b[i] {
      SwingsSettle(short, long, opt, i);
      StructureSettles(short, long, opt, i);
      assert short[i] == long[i];
      hide OutAt, Swings.SwingRowAt;
    }
    hide OutAt, Swings.SwingRowAt;
  }

  lemma {:induction false} LiquiditySettles(short: seq<Candle>, long: seq<Candle>, opt: Options, p: nat)
    requires short <= long && p + opt.right < |short|
    ensures LiqCellsAt(short, opt, p) == LiqCellsAt(long, opt, p)
  {
    hide LiqRows, Q.CellsAt;
    LiqRowsSettle(short, long, opt, p + 1);
    LiqCellsAreCausal(LiqRows(short, opt), LiqRows(long, opt), opt.liquidity, p);
  }

  lemma {:induction false} LiqCellsAreCausal(a: seq<Q.LiqRow>, b: seq<Q.LiqRow>, cfg: Q.LiqSettings, p: nat)
    requires p < |a| && p < |b| && Agree(a, b, p + 1)
    ensures Q.CellsAt(a, cfg, p) == Q.CellsAt(b, cfg, p)
  {
    hide Q.EngineAt, Q.RowCells;
    assert a[..p + 1][p] == b[..p + 1][p] && a[..p + 1][..p] == a[..p] && b[..p + 1][..p] == b[..p];
    LiquidityIsCausal(a, b, cfg, p);
  }

  lemma {:induction false} ObRowsSettle(short: seq<Candle>, long: seq<Candle>, opt: Options, p: nat)
    requires short <= long && p + opt.right <= |short|
    ensures Agree(ObRows(short, opt), ObRows(long, opt), p)
  {
    var a, b := ObRows(short, opt), ObRows(long, opt);
    forall i | 0 <= i < p ensures a[i] == b[i] {
      StructureSettles(short, long, opt, i);
      LiquiditySettles(short, long, opt, i);
      assert short[i] == long[i];
      hide OutAt, LiqCellsAt;
    }
    hide OutAt, LiqCellsAt;
  }

  lemma {:induction false} ObCellsAreCausal(a: seq<O.ObRow>, b: seq<O.ObRow>, cfg: O.Settings, p: nat)
    requires p < |a| && p < |b| && Agree(a, b, p + 1)
    ensures O.CellsAt(a, cfg, p) == O.CellsAt(b, cfg, p)
  {
    hide O.EngineAt, O.RowCells;
    assert a[..p + 1][..p] == a[..p] && b[..p + 1][..p] == b[..p];
    BlocksAreCausal(a, b, cfg, p);
    RowIsCausal(O.EngineAt(a, cfg, p), a, b, p, cfg);
  }

  /** Every row at least `right` candles from the end of a series keeps its swing,
      structure, liquidity and Order Block cells in any longer series. */
  lemma {:induction false} RowsSettle(short: seq<Candle>, long: seq<Candle>, opt: Options, p: nat)
    requires short <= long && p + opt.right < |short|
    ensures SwingRows(short, opt)[p] == SwingRows(long, opt)[p]
    ensures OutAt(short, opt, p) == OutAt(long, opt, p)
    ensures LiqCellsAt(short, opt, p) == LiqCellsAt(long, opt, p)
    ensures ObCellsAt(short, opt, p) == ObCellsAt(long, opt, p)
  {
    hide ObRows, OutAt, LiqCellsAt, Swings.SwingRowAt, O.CellsAt;
    SwingsSettle(short, long, opt, p);
    StructureSettles(short, long, opt, p);
    LiquiditySettles(short, long, opt, p);
    ObRowsSettle(short, long, opt, p + 1);
    ObCellsAreCausal(ObRows(short, opt), ObRows(long, opt), opt.blocks, p);
  }
}
