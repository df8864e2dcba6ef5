/** Where the prices of a block lie, when the candles are well formed. */
module BlockGeometry {
  import opened Domain
  import opened OrderBlocks
  import L = OrderBlockLife

  /** A candle's low and high enclose its open and close. */
  predicate Formed(row: ObRow) {
    && row.open.Some? && row.high.Some? && row.low.Some? && row.close.Some?
    && row.low.value <= row.open.value <= row.high.value
    && row.low.value <= row.close.value <= row.high.value
  }

  predicate AllFormed(rows: seq<ObRow>) { forall i :: 0 <= i < |rows| ==> Formed(rows[i]) }

  /** A block is an opposing candle of an earlier row, with room between its edges
      and its proximal edge on the side price comes from. */
  predicate Anchored(s: Shape, rows: seq<ObRow>) {
    && s.candle < s.created < |rows| && Formed(rows[s.candle]) && Opposes(rows[s.candle], s.dir)
    && s.high == rows[s.candle].high.value && s.low == rows[s.candle].low.value
    && s.low < s.high && s.atr > 0.0
    && Oriented(s)
  }

  lemma {:induction false} BornAnchored(rows: seq<ObRow>, position: nat, cfg: Settings, id: nat)
    requires position < |rows| && AllFormed(rows)
    ensures var born := Born(rows, position, cfg, id); born.Some? ==> Anchored(born.value.shape, rows)
  {
    hide StrongBody, SweptBetween, Displacement;
    var row := rows[position];
    if row.dir.Some? {
      var at := SourceCandle(rows, position, row.dir.value, cfg.lookback);
      if at.Some? {
        assert Formed(rows[at.value]) && Opposes(rows[at.value], row.dir.value);
      }
    }
  }

  lemma {:induction false} BlocksAreAnchored(rows: seq<ObRow>, cfg: Settings, p: nat, i: nat)
    requires p <= |rows| && AllFormed(rows) && i < |EngineAt(rows, cfg, p).blocks|
    ensures Anchored(EngineAt(rows, cfg, p).blocks[i].shape, rows)
  {
    hide Survey, Process, Born, Anchored;
    assert EngineAt(rows, cfg, 0).blocks == [];
    var s := EngineAt(rows, cfg, p - 1);
    assert EngineAt(rows, cfg, p) == Process(s, rows, p - 1, cfg);
    L.NewbornRow(s, rows, p - 1, cfg);
    if i < |s.blocks| {
      BlocksAreAnchored(rows, cfg, p - 1, i);
      ShapesStay(s, rows, p - 1, cfg, i);
    } else {
      BornAnchored(rows, p - 1, cfg, |Survey(s, rows, p - 1, cfg).aged| + 1);
    }
  }

  // ----- Mitigation -----

  /** A mitigated block records a price inside itself and how far in it lies. */
  predicate MeasuredIn(s: Shape, l: Life) {
    l.mitigated ==>
      && l.mitigationPrice.Some? && s.low <= l.mitigationPrice.value <= s.high
      && l.mitigationDepth.Some? && l.mitigationPercentage.Some? && 0.0 <= l.mitigationPercentage.value <= 100.0
      && l.mitigationDepth.value
         == (if s.dir == Bullish then s.high - l.mitigationPrice.value else l.mitigationPrice.value - s.low)
  }

  lemma {:induction false} Quotient(depth: real, size: real)
    requires 0.0 <= depth <= size && size > 0.0
    ensures 0.0 <= depth / size * 100.0 <= 100.0
  {
    assert depth / size <= 1.0;
  }

  lemma {:induction false} TouchMeasures(s: Shape, row: ObRow, position: nat, standing: Standing)
    requires HasPrices(row) && s.low < s.high
    ensures MeasuredIn(s, MarkMitigated(Block(s, Newborn(standing)), position, EntryPrice(s, row)).life)
  {
    Quotient(Depth(s, EntryPrice(s, row)), RangeSize(s));
  }

  lemma {:induction false} FateMeasures(s: Shape, rows: seq<ObRow>, cfg: Settings, n: nat)
    requires s.created < n <= |rows| && s.low < s.high
    ensures MeasuredIn(s, L.Fated(s, rows, cfg, n))
  {
    var first := L.FirstFate(s, rows, cfg, s.created + 1, n);
    if first.Some? && HasPrices(rows[first.value]) {
      TouchMeasures(s, rows[first.value], first.value, Provisional);
    }
    hide EntryPrice, Depth, Percentage, Pierced, Touched, Cascades;
  }

  /** Every mitigation of a run happened inside the block, 0 to 100 percent deep. */
  lemma {:induction false} MitigationsAreInside(rows: seq<ObRow>, cfg: Settings, p: nat, i: nat)
    requires p <= |rows| && AllFormed(rows) && i < |EngineAt(rows, cfg, p).blocks|
    ensures var b := EngineAt(rows, cfg, p).blocks[i]; MeasuredIn(b.shape, b.life)
  {
    BlocksAreAnchored(rows, cfg, p, i);
    L.LivesAreFated(rows, cfg, p, i);
    var b := EngineAt(rows, cfg, p).blocks[i];
    hide EngineAt;
    FateMeasures(b.shape, rows, cfg, p);
    assert L.Bare(b.life).mitigated == b.life.mitigated && L.Bare(b.life).mitigationPrice == b.life.mitigationPrice;
    hide L.Fated, L.FirstFate;
  }
}
