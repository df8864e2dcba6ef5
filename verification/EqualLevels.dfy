/** The equal-high and equal-low columns, which later rows write back into earlier
    ones: what each cell says, and when it can still change. */
module EqualLevels {
  import opened Domain
  import opened Liquidity
  import LiquidityEngine
  import Swings
  import S = Structure
  import opened Pipeline

  // ----- Labelled swings of one side -----

  /** The swing row `i` adds to `side`. */
  function SwingOf(rows: seq<LiqRow>, side: Side, i: nat): (swing: Option<Swing>)
    requires i < |rows|
    ensures swing.Some? ==> swing.value.row == i
  {
    var swing := NewSwing(rows[i], i);
    if swing.Some? && SideOf(rows[i].tag.value) == side then swing else None
  }

  /** The last swing of `side` among the first `p` rows. */
  function LastSwing(rows: seq<LiqRow>, side: Side, p: nat): (last: Option<Swing>)
    requires p <= |rows|
    ensures last.Some? ==> last.value.row < p && SwingOf(rows, side, last.value.row) == last
    ensures forall i :: (if last.Some? then last.value.row + 1 else 0) <= i < p ==> SwingOf(rows, side, i).None?
  {
    if p == 0 then None
    else if SwingOf(rows, side, p - 1).Some? then SwingOf(rows, side, p - 1)
    else LastSwing(rows, side, p - 1)
  }

  /** The first swing of `side` in rows `[from, end)`. */
  function NextSwing(rows: seq<LiqRow>, side: Side, from: nat, end: nat): (next: Option<Swing>)
    requires from <= end <= |rows|
    ensures next.Some? ==> from <= next.value.row < end && SwingOf(rows, side, next.value.row) == next
    ensures forall i :: from <= i < (if next.Some? then next.value.row else end) ==> SwingOf(rows, side, i).None?
    decreases end - from
  {
    if from == end then None
    else if SwingOf(rows, side, from).Some? then SwingOf(rows, side, from)
    else NextSwing(rows, side, from + 1, end)
  }

  /** The engine compares a swing with the last one of its side. */
  lemma {:induction false} TrackerIsLastSwing(rows: seq<LiqRow>, cfg: LiqSettings, side: Side, p: nat)
    requires p <= |rows|
    ensures PreviousSwing(EngineAt(rows, cfg, p).tracker, side) == LastSwing(rows, side, p)
  {
    hide Survivors, Born;
    if p > 0 {
      TrackerIsLastSwing(rows, cfg, side, p - 1);
    }
  }

  // ----- What a cell says -----

  datatype Pair = Pair(first: Swing, second: Swing)

  /** The cell names the pool of this pair, or nothing. */
  predicate Names(cell: Option<PoolShape>, side: Side, pair: Option<Pair>) {
    if pair.None? then cell.None?
    else
      var a, b := pair.value.first, pair.value.second;
      && cell.Some?
      && cell.value == PoolShape(side, cell.value.number, (a.price + b.price) / 2.0, b.row, a.row, a.price, b.price)
  }

  /** The column cell of row `r` after `n` rows. */
  function EqualCell(rows: seq<LiqRow>, cfg: LiqSettings, side: Side, r: nat, n: nat): Option<PoolShape>
    requires n <= |rows|
  {
    var pools := EngineAt(rows, cfg, n).pools;
    EqualMark(pools, side, r, |pools|)
  }

  function OptionalPair(first: Option<Swing>, second: Option<Swing>, cfg: LiqSettings): (pair: Option<Pair>)
    ensures pair.Some? <==> first.Some? && second.Some? && Equal(first.value, second.value, cfg)
    ensures pair.Some? ==> pair.value == Pair(first.value, second.value)
  {
    if first.Some? && second.Some? && Equal(first.value, second.value, cfg)
    then Some(Pair(first.value, second.value)) else None
  }

  /** The pair of row `r` after `n` rows: with the next swing of its side if they are
      equal, or else with the previous one. */
  function PairOf(rows: seq<LiqRow>, cfg: LiqSettings, side: Side, r: nat, n: nat): Option<Pair>
    requires r < n <= |rows|
  {
    var own := SwingOf(rows, side, r);
    var later := OptionalPair(own, NextSwing(rows, side, r + 1, n), cfg);
    if later.Some? then later else OptionalPair(LastSwing(rows, side, r), own, cfg)
  }

  lemma {:induction false} BornIsPair(rows: seq<LiqRow>, cfg: LiqSettings, side: Side, n: nat)
    requires n < |rows|
    ensures
      var born := Born(EngineAt(rows, cfg, n).tracker, rows[n], n, cfg);
      var pair := OptionalPair(LastSwing(rows, side, n), SwingOf(rows, side, n), cfg);
      Names(if born.Some? && born.value.shape.side == side then Some(born.value.shape) else None, side, pair)
  {
    hide EngineAt;
    TrackerIsLastSwing(rows, cfg, side, n);
  }

  /** A row writes only the cells of its own swing and of the one it is paired with. */
  lemma {:induction false} RowWrites(rows: seq<LiqRow>, cfg: LiqSettings, side: Side, r: nat, n: nat)
    requires n < |rows|
    ensures
      var pair := OptionalPair(LastSwing(rows, side, n), SwingOf(rows, side, n), cfg);
      var before, after := EqualCell(rows, cfg, side, r, n), EqualCell(rows, cfg, side, r, n + 1);
      if pair.Some? && (r == n || r == pair.value.first.row) then Names(after, side, pair) else after == before
  {
    BornIsPair(rows, cfg, side, n);
    var s := EngineAt(rows, cfg, n);
    var kept, after := Survivors(s, rows[n], n, cfg), EngineAt(rows, cfg, n + 1).pools;
    assert after == Process(s, rows[n], n, cfg).pools;
    forall i | 0 <= i < |s.pools| ensures |kept| == |s.pools| && kept[i].shape == s.pools[i].shape {
      ShapesStay(s, rows[n], n, cfg, i);
    }
    hide EngineAt, Survivors, Born;
    LiquidityEngine.SameShapesSameMarks(s.pools, after, side, r, |s.pools|);
  }

  lemma {:induction false} NextSwingExtends(rows: seq<LiqRow>, side: Side, from: nat, end: nat)
    requires from <= end < |rows|
    ensures
      var before := NextSwing(rows, side, from, end);
      NextSwing(rows, side, from, end + 1) == if before.Some? then before else SwingOf(rows, side, end)
    decreases end - from
  {
    hide SwingOf;
    if from < end && SwingOf(rows, side, from).None? {
      NextSwingExtends(rows, side, from + 1, end);
    }
  }

  /** A cell not yet reached is empty. */
  lemma {:induction false} CellStartsEmpty(rows: seq<LiqRow>, cfg: LiqSettings, side: Side, r: nat, n: nat)
    requires n <= |rows| && n <= r
    ensures EqualCell(rows, cfg, side, r, n).None?
  {
    if n > 0 {
      CellStartsEmpty(rows, cfg, side, r, n - 1);
      RowWrites(rows, cfg, side, r, n - 1);
    }
    hide SwingOf;
  }

  /** One more row changes the pair of `r` only by pairing its own swing with it. */
  lemma {:induction false} PairExtends(rows: seq<LiqRow>, cfg: LiqSettings, side: Side, r: nat, n: nat)
    requires r < n < |rows|
    ensures
      var pair := OptionalPair(LastSwing(rows, side, n), SwingOf(rows, side, n), cfg);
      PairOf(rows, cfg, side, r, n + 1)
      == if pair.Some? && r == pair.value.first.row then pair else PairOf(rows, cfg, side, r, n)
  {
    hide SwingOf, Equal;
    NextSwingExtends(rows, side, r + 1, n);
  }

  lemma {:induction false} FirstPair(rows: seq<LiqRow>, cfg: LiqSettings, side: Side, r: nat)
    requires r < |rows|
    ensures PairOf(rows, cfg, side, r, r + 1) == OptionalPair(LastSwing(rows, side, r), SwingOf(rows, side, r), cfg)
  {
    hide SwingOf, Equal;
  }

  /** Every cell of every run names the pair of its row. */
  lemma {:induction false} CellIsPair(rows: seq<LiqRow>, cfg: LiqSettings, side: Side, r: nat, n: nat)
    requires r < n <= |rows|
    ensures Names(EqualCell(rows, cfg, side, r, n), side, PairOf(rows, cfg, side, r, n))
    decreases n
  {
    hide EqualCell, SwingOf, Names, PairOf, OptionalPair, NextSwing;
    RowWrites(rows, cfg, side, r, n - 1);
    if r == n - 1 {
      CellStartsEmpty(rows, cfg, side, r, r);
      NoneNamesNone(side);
      FirstPair(rows, cfg, side, r);
    } else {
      CellIsPair(rows, cfg, side, r, n - 1);
      PairExtends(rows, cfg, side, r, n - 1);
    }
  }

  lemma {:induction false} NoneNamesNone(side: Side)
    ensures Names(None, side, None)
  {
  }

  // ----- When a cell can still change -----

  /** The swing that changes the cell of row `r` between row `n` and row `m`: the next
      one of its side, if it only comes then and is equal to the row's own. */
  predicate Rewritten(rows: seq<LiqRow>, cfg: LiqSettings, side: Side, r: nat, n: nat, m: nat)
    requires r < n <= m <= |rows|
  {
    && NextSwing(rows, side, r + 1, n).None?
    && OptionalPair(SwingOf(rows, side, r), NextSwing(rows, side, r + 1, m), cfg).Some?
  }

  lemma {:induction false} SwingsDoNotMove(rows: seq<LiqRow>, side: Side, from: nat, n: nat, m: nat)
    requires from <= n <= m <= |rows| && NextSwing(rows, side, from, n).Some?
    ensures NextSwing(rows, side, from, m) == NextSwing(rows, side, from, n)
    decreases n - from
  {
    hide SwingOf;
    if SwingOf(rows, side, from).None? {
      SwingsDoNotMove(rows, side, from + 1, n, m);
    }
  }

  /** A cell keeps its value as long as it is not rewritten. */
  lemma {:induction false} CellStays(rows: seq<LiqRow>, cfg: LiqSettings, side: Side, r: nat, n: nat, m: nat)
    requires r < n <= m <= |rows| && !Rewritten(rows, cfg, side, r, n, m)
    ensures EqualCell(rows, cfg, side, r, m) == EqualCell(rows, cfg, side, r, n)
    decreases m
  {
    hide EqualCell, SwingOf;
    if n < m {
      NextSwingExtends(rows, side, r + 1, m - 1);
      CellStays(rows, cfg, side, r, n, m - 1);
      RowWrites(rows, cfg, side, r, m - 1);
    }
  }

  /** Between row `n` and row `m` a cell changes exactly when the next swing of its
      side comes in between and is equal to the row's own; after that swing it is
      final. */
  lemma {:induction false} CellChangesIff(rows: seq<LiqRow>, cfg: LiqSettings, side: Side, r: nat, n: nat, m: nat)
    requires r < n <= m <= |rows|
    ensures EqualCell(rows, cfg, side, r, m) != EqualCell(rows, cfg, side, r, n) <==>
            Rewritten(rows, cfg, side, r, n, m)
  {
    hide EqualCell, SwingOf;
    if Rewritten(rows, cfg, side, r, n, m) {
      CellIsPair(rows, cfg, side, r, n);
      CellIsPair(rows, cfg, side, r, m);
    } else {
      CellStays(rows, cfg, side, r, n, m);
    }
  }

  // ----- Bounded repainting -----

  /** The last `right` rows of a series hold no labelled swing. */
  lemma {:induction false} NoSwingsAtTheEnd(candles: seq<Candle>, opt: Options, side: Side, i: nat)
    requires i < |candles| <= i + opt.right
    ensures SwingOf(LiqRows(candles, opt), side, i).None?
  {
    assert SwingRows(candles, opt)[i] == Swings.SwingRowAt(candles, opt.left, opt.right, i);
    hide S.At;
  }

  lemma {:induction false} NoSwingsAfter(candles: seq<Candle>, opt: Options, side: Side, from: nat, n: nat)
    requires from <= n <= |candles| <= n + opt.right
    ensures
      var rows := LiqRows(candles, opt);
      NextSwing(rows, side, from, |rows|) == NextSwing(rows, side, from, n)
    decreases n - from
  {
    hide LiqRows, SwingOf;
    LiqRowsLength(candles, opt);
    var rows := LiqRows(candles, opt);
    var next := NextSwing(rows, side, from, |rows|);
    if next.Some? && n <= next.value.row {
      NoSwingsAtTheEnd(candles, opt, side, next.value.row);
    }
    if NextSwing(rows, side, from, n).Some? {
      SwingsDoNotMove(rows, side, from, n, |rows|);
    }
  }

  lemma {:induction false} LiqRowsLength(candles: seq<Candle>, opt: Options)
    ensures |LiqRows(candles, opt)| == |candles|
  {
  }

  lemma {:induction false} SwingsAgree(a: seq<LiqRow>, b: seq<LiqRow>, side: Side, from: nat, n: nat)
    requires from <= n && Agree(a, b, n)
    ensures NextSwing(a, side, from, n) == NextSwing(b, side, from, n)
    decreases n - from
  {
    if from < n {
      assert a[..n][from] == b[..n][from];
      SwingsAgree(a, b, side, from + 1, n);
    }
    hide NewSwing;
  }

  lemma {:induction false} CellsAgree(a: seq<LiqRow>, b: seq<LiqRow>, cfg: LiqSettings, side: Side, r: nat, n: nat)
    requires r < n && Agree(a, b, n)
    ensures EqualCell(a, cfg, side, r, n) == EqualCell(b, cfg, side, r, n)
    ensures SwingOf(a, side, r) == SwingOf(b, side, r)
  {
    hide EngineAt, EqualMark, NewSwing;
    LiquidityIsCausal(a, b, cfg, n);
    assert a[..n][r] == b[..n][r];
  }

  /** A row at least `right` candles from the end of a series shows another equal-high
      or equal-low cell in a longer series exactly when its next labelled swing of
      that side comes only in the longer one and is equal to the row's own. */
  lemma {:induction false} EqualCellsSettle(short: seq<Candle>, long: seq<Candle>, opt: Options, side: Side, r: nat)
    requires short <= long && r + opt.right < |short|
    ensures
      var a, b := LiqRows(short, opt), LiqRows(long, opt);
      EqualCell(b, opt.liquidity, side, r, |b|) != EqualCell(a, opt.liquidity, side, r, |a|) <==>
        && NextSwing(a, side, r + 1, |a|).None?
        && OptionalPair(SwingOf(a, side, r), NextSwing(b, side, r + 1, |b|), opt.liquidity).Some?
  {
    hide LiqRows, EqualCell, SwingOf, NextSwing;
    LiqRowsLength(short, opt);
    LiqRowsLength(long, opt);
    var a, b, n, cfg := LiqRows(short, opt), LiqRows(long, opt), |short| - opt.right, opt.liquidity;
    LiqRowsSettle(short, long, opt, n);
    NoSwingsAfter(short, opt, side, r + 1, n);
    CellChangesIff(a, cfg, side, r, n, |a|);
    CellsAgree(a, b, cfg, side, r, n);
    SwingsAgree(a, b, side, r + 1, n);
    CellChangesIff(b, cfg, side, r, n, |b|);
  }
}
