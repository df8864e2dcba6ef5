/** Candle series whose event stream the text ids put out of order: many pools at one
    price, all swept by the last candle. */
module CrowdedRow {
  import opened Domain
  import opened Swings
  import S = Structure
  import Q = Liquidity
  import O = OrderBlocks
  import Pipeline
  import Items
  import opened TextIds
  import opened EventStream

  /** Equal highs on odd rows and equal lows on even ones; the last candle reaches
      above the highs and closes below them. */
  function CandleAt(k: nat, i: nat): Candle {
    if i == 2 * k + 5 then Candle(i, 11.0, 13.0, 9.0, 11.0, Some(1.0))
    else if i % 2 == 1 then Candle(i, 10.0, 12.0, 9.0, 10.0, Some(1.0))
    else Candle(i, 10.0, 11.0, 8.0, 10.0, Some(1.0))
  }

  function Crowd(k: nat): (candles: seq<Candle>)
    ensures |candles| == 2 * k + 6
  {
    seq(2 * k + 6, i requires 0 <= i < 2 * k + 6 => CandleAt(k, i))
  }

  lemma {:induction false} CrowdIsFormed(k: nat)
    ensures forall c :: c in Crowd(k) ==> c.low <= c.open <= c.high && c.low <= c.close <= c.high
  {
  }

  const LIQUIDITY := Q.LiqSettings(0.0, 1.0, 0.0, 0.0, None)

  const OPTIONS := Pipeline.Options(1, 1, 0.1, LIQUIDITY, O.Settings({CHoCH}, 5, 0.0, 0.0, false, 0.0, 1.0, None))

  function LastRow(k: nat): nat { 2 * k + 5 }

  // ----- Structure -----

  predicate IsHigh(p: nat) { p % 2 == 1 }

  predicate IsLow(p: nat) { p % 2 == 0 && p >= 2 }

  lemma {:induction false} RowIs(k: nat, p: nat)
    requires p < LastRow(k)
    ensures Pipeline.SwingRows(Crowd(k), OPTIONS)[p] == SwingRowAt(Crowd(k), 1, 1, p)
            == Flagged(CandleAt(k, p), IsHigh(p), IsLow(p))
  {
    if p >= 1 {
      Peak(Crowd(k), p);
      NoPeak(Crowd(k), p, p - 1);
      hide IsSwingHigh, IsSwingLow;
    }
  }

  /** The trend stays undecided or bearish between the two prices, so no cycle ends. */
  predicate Calm(s: S.Snapshot, p: nat) {
    && s.memory.cycleHigh == (if p >= 2 then Some(12.0) else None)
    && s.memory.cycleLow == (if p >= 3 then Some(8.0) else None)
    && s.memory.detectedHigh in {None, Some(12.0)}
    && !s.cycle.Challenged?
    && (s.cycle.Trending? ==>
          && s.cycle.dir == Bearish && (s.cycle.anchor.Some? ==> s.cycle.anchor.value.price == 12.0)
          && s.cycle.target in {None, Some(8.0)})
  }

  function TagAt(p: nat): Option<Label> {
    if p < 3 then None else if IsHigh(p) then Some(LH) else Some(LL)
  }

  lemma {:induction false} CalmStep(s: S.Snapshot, k: nat, p: nat)
    requires p < LastRow(k) && Calm(s, p)
    ensures
      var row := Flagged(CandleAt(k, p), IsHigh(p), IsLow(p));
      S.LabelOf(s.memory, row) == TagAt(p) && Calm(S.Advanced(s, row, 0.1, p).next, p + 1)
  {
  }

  lemma {:induction false} StaysCalm(k: nat, p: nat)
    requires p <= LastRow(k)
    ensures Calm(S.At(Pipeline.SwingRows(Crowd(k), OPTIONS), 0.1, p), p)
  {
    hide S.Advanced, S.LabelOf, Pipeline.SwingRows;
    assert |Pipeline.SwingRows(Crowd(k), OPTIONS)| == 2 * k + 6 by { RowCount(k); }
    if p > 0 {
      StaysCalm(k, p - 1);
      RowIs(k, p - 1);
      CalmStep(S.At(Pipeline.SwingRows(Crowd(k), OPTIONS), 0.1, p - 1), k, p - 1);
    }
  }

  lemma {:induction false} RowCount(k: nat)
    ensures |Pipeline.SwingRows(Crowd(k), OPTIONS)| == 2 * k + 6
  {
  }

  // ----- Liquidity -----

  function Rows(k: nat): (rows: seq<Q.LiqRow>)
    ensures |rows| == 2 * k + 6
  {
    Pipeline.LiqRows(Crowd(k), OPTIONS)
  }

  function RowAt(k: nat, p: nat): Q.LiqRow {
    var c := CandleAt(k, p);
    Q.LiqRow(Some(c.high), Some(c.low), Some(c.close), TagAt(p), if IsHigh(p) then Some(12.0) else None,
             if IsLow(p) then Some(8.0) else None)
  }

  lemma {:induction false} LiqRowIs(k: nat, p: nat)
    requires p < LastRow(k)
    ensures Rows(k)[p] == RowAt(k, p)
  {
    hide S.Advanced, S.At, Calm;
    RowIs(k, p);
    StaysCalm(k, p);
    CalmStep(S.At(Pipeline.SwingRows(Crowd(k), OPTIONS), 0.1, p), k, p);
  }

  function SideAt(i: nat): Q.Side { if i % 2 == 0 then Q.BSL else Q.SSL }

  function LevelAt(i: nat): real { if i % 2 == 0 then 12.0 else 8.0 }

  predicate Waiting(pool: Q.Pool, i: nat) {
    pool.life == Q.NEWBORN && pool.shape.side == SideAt(i) && pool.shape.level == LevelAt(i)
  }

  /** From row 5 on every row adds a pool, and none of them is touched. */
  predicate Crowding(s: Q.Engine, p: nat) {
    && |s.pools| == (if p < 5 then 0 else p - 5)
    && (forall i :: 0 <= i < |s.pools| ==> Waiting(s.pools[i], i))
    && (if p < 4 then s.tracker.high.None? else s.tracker.high.Some? && s.tracker.high.value.price == 12.0)
    && (if p < 5 then s.tracker.low.None? else s.tracker.low.Some? && s.tracker.low.value.price == 8.0)
  }

  lemma {:induction false} Untouched(pool: Q.Pool, k: nat, p: nat, i: nat)
    requires p < LastRow(k) && Waiting(pool, i)
    ensures Q.Checked(pool, RowAt(k, p), p, LIQUIDITY) == pool && Q.Aged(pool, p, None) == pool
    ensures Q.Announce(pool, pool, p) == []
  {
  }

  lemma {:induction false} NothingAnnounced(pools: seq<Q.Pool>, p: nat, n: nat)
    requires n <= |pools|
    ensures Q.AnnounceAll(pools, pools, p, n) == []
  {
    if n > 0 {
      NothingAnnounced(pools, p, n - 1);
    }
  }

  lemma {:induction false} BornOn(t: Q.Tracker, k: nat, p: nat)
    requires p < LastRow(k)
    requires if p < 4 then t.high.None? else t.high.Some? && t.high.value.price == 12.0
    requires if p < 5 then t.low.None? else t.low.Some? && t.low.value.price == 8.0
    ensures
      var born, next := Q.Born(t, RowAt(k, p), p, LIQUIDITY), Q.Tracked(t, RowAt(k, p), p, LIQUIDITY);
      && (born.Some? <==> p >= 5) && (born.Some? ==> Waiting(born.value, p - 5))
      && (if p + 1 < 4 then next.high.None? else next.high.Some? && next.high.value.price == 12.0)
      && (if p + 1 < 5 then next.low.None? else next.low.Some? && next.low.value.price == 8.0)
  {
  }

  lemma {:induction false} NoneTouched(s: Q.Engine, k: nat, p: nat)
    requires p < LastRow(k) && Crowding(s, p)
    ensures Q.CheckedAll(s.pools, RowAt(k, p), p, LIQUIDITY) == s.pools && Q.AgedAll(s.pools, p, None) == s.pools
    ensures Q.AnnounceAll(s.pools, s.pools, p, |s.pools|) == []
  {
    hide Q.Checked, Q.Aged, RowAt;
    NothingAnnounced(s.pools, p, |s.pools|);
    forall i | 0 <= i < |s.pools|
      ensures Q.Checked(s.pools[i], RowAt(k, p), p, LIQUIDITY) == s.pools[i]
              && Q.Aged(s.pools[i], p, None) == s.pools[i]
    {
      Untouched(s.pools[i], k, p, i);
    }
  }

  lemma {:induction false} CrowdStep(s: Q.Engine, k: nat, p: nat)
    requires p < LastRow(k) && Crowding(s, p)
    ensures Crowding(Q.Process(s, RowAt(k, p), p, LIQUIDITY), p + 1)
    ensures |Q.RowEvents(s, RowAt(k, p), p, LIQUIDITY)| == if p < 5 then 0 else 1
  {
    hide Q.Born, Q.Tracked, Q.CheckedAll, Q.AgedAll, Q.AnnounceAll, RowAt, Waiting;
    NoneTouched(s, k, p);
    BornOn(s.tracker, k, p);
  }

  lemma {:induction false} Crowds(k: nat, p: nat)
    requires p <= LastRow(k)
    ensures Crowding(Q.EngineAt(Rows(k), LIQUIDITY, p), p)
    ensures |Q.EventsUpTo(Rows(k), LIQUIDITY, p)| == if p < 5 then 0 else p - 5
  {
    hide Q.Process, Q.RowEvents, Rows, RowAt;
    if p > 0 {
      Crowds(k, p - 1);
      LiqRowIs(k, p - 1);
      CrowdStep(Q.EngineAt(Rows(k), LIQUIDITY, p - 1), k, p - 1);
    }
  }

  // ----- The last candle -----

  predicate Spikes(row: Q.LiqRow) {
    row.high == Some(13.0) && row.low == Some(9.0) && row.close == Some(11.0) && row.tag.None?
  }

  lemma {:induction false} LastRowSpikes(k: nat)
    ensures Spikes(Rows(k)[LastRow(k)])
  {
    var p := LastRow(k);
    assert SwingRowAt(Crowd(k), 1, 1, p) == Flagged(CandleAt(k, p), false, false);
    hide S.At;
  }

  lemma {:induction false} Taken(pool: Q.Pool, row: Q.LiqRow, p: nat, i: nat)
    requires Spikes(row) && Waiting(pool, i)
    ensures |Q.Announce(pool, Q.Checked(pool, row, p, LIQUIDITY), p)| == if i % 2 == 0 then 1 else 0
  {
  }

  /** Of the first `2 * n` pools the candle sweeps every other one. */
  lemma {:induction false} SweepsHalf(pools: seq<Q.Pool>, row: Q.LiqRow, p: nat, n: nat)
    requires Spikes(row) && 2 * n <= |pools| && forall i :: 0 <= i < |pools| ==> Waiting(pools[i], i)
    ensures |Q.CheckedAll(pools, row, p, LIQUIDITY)| == |pools|
    ensures |Q.AnnounceAll(pools, Q.CheckedAll(pools, row, p, LIQUIDITY), p, 2 * n)| == n
  {
    hide Q.Checked, Q.Announce, Waiting, Spikes;
    if n > 0 {
      SweepsHalf(pools, row, p, n - 1);
      Taken(pools[2 * n - 2], row, p, 2 * n - 2);
      Taken(pools[2 * n - 1], row, p, 2 * n - 1);
      AnnounceTwo(pools, Q.CheckedAll(pools, row, p, LIQUIDITY), p, 2 * n);
    }
  }

  lemma {:induction false} AnnounceTwo(before: seq<Q.Pool>, after: seq<Q.Pool>, p: nat, n: nat)
    requires 2 <= n <= |before| == |after|
    ensures Q.AnnounceAll(before, after, p, n)
            == Q.AnnounceAll(before, after, p, n - 2) + Q.Announce(before[n - 2], after[n - 2], p)
               + Q.Announce(before[n - 1], after[n - 1], p)
  {
    hide Q.Announce;
  }

  lemma {:induction false} LastRowEvents(s: Q.Engine, row: Q.LiqRow, k: nat)
    requires Spikes(row) && Crowding(s, LastRow(k))
    ensures |Q.RowEvents(s, row, LastRow(k), LIQUIDITY)| == k
  {
    hide Q.CheckedAll, Q.AnnounceAll, Waiting;
    SweepsHalf(s.pools, row, LastRow(k), k);
  }

  // ----- The stream -----

  /** The rows of the liquidity events, in emission order. */
  function EventRows(k: nat): seq<nat> {
    LiquidityRows(Q.EventsUpTo(Rows(k), LIQUIDITY, 2 * k + 6))
  }

  /** After the first `2 * k` events all of the `k` others are on the last row. */
  lemma {:induction false} LastRowIsCrowded(k: nat)
    ensures |EventRows(k)| == 3 * k && forall i :: 2 * k <= i < 3 * k ==> EventRows(k)[i] == LastRow(k)
  {
    hide Q.EngineAt, Q.RowEvents, Rows, Spikes, Crowding;
    var s, row := Q.EngineAt(Rows(k), LIQUIDITY, LastRow(k)), Rows(k)[LastRow(k)];
    Crowds(k, LastRow(k));
    LastRowSpikes(k);
    LastRowEvents(s, row, k);
    LiquidityRowEvents(s, row, LastRow(k), LIQUIDITY);
  }

  lemma {:induction false} EventRowsAre(k: nat)
    ensures |Rows(k)| == |Crowd(k)| && EventRows(k) == LiquidityRows(Q.EventsUpTo(Rows(k), LIQUIDITY, |Rows(k)|))
  {
    hide Q.EventsUpTo, Rows;
  }

  lemma {:induction false} CrowdCrosses(k: nat, w: nat)
    requires 5 <= w && 2 * k + 2 <= Pow10(w) <= 3 * k
    ensures !NoCrossing(EventRows(k))
  {
    hide EventRows, Pow10;
    LastRowIsCrowded(k);
  }

  /** Whenever a power of ten falls among the events of the last row, the sorted
      stream does not keep the order in which the liquidity engine emitted them. */
  lemma {:induction false} CrowdIsReordered(k: nat, w: nat, ob: seq<O.ObRow>, obCfg: O.Settings, outs: seq<S.OutRow>,
                                            times: seq<int>)
    requires 5 <= w && 2 * k + 2 <= Pow10(w) <= 3 * k
    requires |ob| == |outs| == |times| == |Crowd(k)| && Increasing(times)
    ensures
      var streams := Collected(Rows(k), LIQUIDITY, ob, obCfg, outs, times);
      Only(Items.Sorted(streams[0] + streams[1] + streams[2], Before), FromLiquidity) != streams[1]
  {
    hide *;
    EventRowsAre(k);
    CrowdCrosses(k, w);
    AnalysisStreamIsRowWise(Rows(k), LIQUIDITY, ob, obCfg, outs, times);
  }

  /** 70006 well-formed candles are enough. */
  lemma {:induction false} CrowdOfCandles()
    ensures |Crowd(35000)| == 70006 && !NoCrossing(EventRows(35000))
    ensures forall c :: c in Crowd(35000) ==> c.low <= c.open <= c.high && c.low <= c.close <= c.high
  {
    hide EventRows, NoCrossing, Crowd, CandleAt;
    assert Pow10(5) == 100000;
    CrowdIsFormed(35000);
    CrowdCrosses(35000, 5);
  }
}
