/** Swing-point detection and the whole-series swing classifier. */
module Swings {
  import opened Domain
  import opened Structure

  // ----- Swing points -----

  /** Strictly above every candle in the window on both sides. */
  predicate IsSwingHigh(candles: seq<Candle>, left: nat, right: nat, p: int) {
    && left <= p < |candles| - right
    && forall i :: p - left <= i <= p + right && i != p ==> candles[i].high < candles[p].high
  }

  predicate IsSwingLow(candles: seq<Candle>, left: nat, right: nat, p: int) {
    && left <= p < |candles| - right
    && forall i :: p - left <= i <= p + right && i != p ==> candles[i].low > candles[p].low
  }

  /** A candle's row, given its flags. */
  function Flagged(c: Candle, high: bool, low: bool): SwingRow {
    SwingRow(Some(c.high), Some(c.low), Some(c.close), c.atr, high, low,
             if high then Some(c.high) else None, if low then Some(c.low) else None)
  }

  /** In the window of one candle on each side a higher or equal neighbour decides. */
  lemma {:induction false} NoPeak(candles: seq<Candle>, p: nat, i: nat)
    requires i < |candles| && i != p && p <= i + 1 && i <= p + 1
    ensures p < |candles| && candles[i].high >= candles[p].high ==> !IsSwingHigh(candles, 1, 1, p)
    ensures p < |candles| && candles[i].low <= candles[p].low ==> !IsSwingLow(candles, 1, 1, p)
  {
  }

  lemma {:induction false} Peak(candles: seq<Candle>, p: nat)
    requires 1 <= p < |candles| - 1
    ensures candles[p - 1].high < candles[p].high && candles[p + 1].high < candles[p].high ==>
            IsSwingHigh(candles, 1, 1, p)
    ensures candles[p - 1].low > candles[p].low && candles[p + 1].low > candles[p].low ==> IsSwingLow(candles, 1, 1, p)
  {
  }

  function SwingRowAt(candles: seq<Candle>, left: nat, right: nat, p: nat): SwingRow
    requires p < |candles|
  {
    Flagged(candles[p], IsSwingHigh(candles, left, right, p), IsSwingLow(candles, left, right, p))
  }

  function SwingRows(candles: seq<Candle>, left: nat, right: nat): seq<SwingRow> {
    seq(|candles|, p requires 0 <= p < |candles| => SwingRowAt(candles, left, right, p))
  }

  datatype SwingError = WindowTooSmall | TooFewCandles

  method HighestHigh(candles: seq<Candle>, from: nat, to: nat) returns (m: real)
    requires from < to <= |candles|
    ensures forall i :: from <= i < to ==> candles[i].high <= m
    ensures exists i :: from <= i < to && candles[i].high == m
  {
    m := candles[from].high;
    for i := from + 1 to to
      invariant forall k :: from <= k < i ==> candles[k].high <= m
      invariant exists k :: from <= k < i && candles[k].high == m
    {
      if candles[i].high > m {
        m := candles[i].high;
      }
    }
  }

  method LowestLow(candles: seq<Candle>, from: nat, to: nat) returns (m: real)
    requires from < to <= |candles|
    ensures forall i :: from <= i < to ==> candles[i].low >= m
    ensures exists i :: from <= i < to && candles[i].low == m
  {
    m := candles[from].low;
    for i := from + 1 to to
      invariant forall k :: from <= k < i ==> candles[k].low >= m
      invariant exists k :: from <= k < i && candles[k].low == m
    {
      if candles[i].low < m {
        m := candles[i].low;
      }
    }
  }

  function Plain(c: Candle): SwingRow {
    SwingRow(Some(c.high), Some(c.low), Some(c.close), c.atr, false, false, None, None)
  }

  method DetectSwingPoints(candles: seq<Candle>, left: int, right: int)
    returns (result: Result<seq<SwingRow>, SwingError>)
    ensures result == Failure(WindowTooSmall) <==> left < 1 || right < 1
    ensures result == Failure(TooFewCandles) <==> left >= 1 && right >= 1 && |candles| < left + right + 1
    ensures result.Success? ==> left >= 1 && right >= 1 && result.value == SwingRows(candles, left, right)
  {
    if left < 1 || right < 1 {
      return Failure(WindowTooSmall);
    }
    if |candles| < left + right + 1 {
      return Failure(TooFewCandles);
    }
    var rows := seq(|candles|, p requires 0 <= p < |candles| => Plain(candles[p]));
    for position := left to |candles| - right
      invariant |rows| == |candles|
      invariant forall i :: 0 <= i < position ==> rows[i] == SwingRowAt(candles, left, right, i)
      invariant forall i :: position <= i < |candles| ==> rows[i] == Plain(candles[i])
    {
      var c := candles[position];
      var leftHigh := HighestHigh(candles, position - left, position);
      var rightHigh := HighestHigh(candles, position + 1, position + right + 1);
      var leftLow := LowestLow(candles, position - left, position);
      var rightLow := LowestLow(candles, position + 1, position + right + 1);
      var row := rows[position];
      if c.high > leftHigh && c.high > rightHigh {
        row := row.(swingHigh := true, swingHighPrice := Some(c.high));
      }
      if c.low < leftLow && c.low < rightLow {
        row := row.(swingLow := true, swingLowPrice := Some(c.low));
      }
      assert row.swingHigh == IsSwingHigh(candles, left, right, position);
      assert row.swingLow == IsSwingLow(candles, left, right, position);
      rows := rows[position := row];
    }
    return Success(rows);
  }

  // ----- Separation of swings -----

  function Min(a: nat, b: nat): nat { if a < b then a else b }

  /** Two swing highs are always more than the shorter window apart. */
  lemma {:induction false} SwingHighsAreApart(candles: seq<Candle>, left: nat, right: nat, p: int, q: int)
    requires p < q && IsSwingHigh(candles, left, right, p) && IsSwingHigh(candles, left, right, q)
    ensures q - p > Min(left, right)
  {
    assert q <= p + right ==> candles[q].high < candles[p].high;
    assert q - left <= p ==> candles[p].high < candles[q].high;
  }

  /** How many of the first `n` rows are swing highs. */
  function SwingHighCount(candles: seq<Candle>, left: nat, right: nat, n: nat): nat {
    if n == 0 then 0
    else SwingHighCount(candles, left, right, n - 1) + if IsSwingHigh(candles, left, right, n - 1) then 1 else 0
  }

  function LastSwingHigh(candles: seq<Candle>, left: nat, right: nat, n: nat): (last: int)
    ensures -1 <= last < n && (last >= 0 ==> IsSwingHigh(candles, left, right, last))
    ensures forall i :: last < i < n ==> !IsSwingHigh(candles, left, right, i)
  {
    if n == 0 then -1
    else if IsSwingHigh(candles, left, right, n - 1) then n - 1
    else LastSwingHigh(candles, left, right, n - 1)
  }

  /** The rows that `count` swings and the gaps after them take up. */
  function Span(count: nat, left: nat, right: nat): nat { count * (Min(left, right) + 1) }

  lemma {:induction false} SpanGrows(count: nat, left: nat, right: nat)
    ensures Span(0, left, right) == 0
    ensures Span(count + 1, left, right) == Span(count, left, right) + Min(left, right) + 1
  {
  }

  lemma {:induction false} SwingHighBudget(candles: seq<Candle>, left: nat, right: nat, n: nat)
    ensures
      var last := LastSwingHigh(candles, left, right, n);
      Span(SwingHighCount(candles, left, right, n), left, right)
      <= if last < 0 then 0 else last - left + Min(left, right) + 1
  {
    hide Span, IsSwingHigh;
    if n == 0 {
      SpanGrows(0, left, right);
    } else {
      SwingHighBudget(candles, left, right, n - 1);
      SpanGrows(SwingHighCount(candles, left, right, n - 1), left, right);
      if IsSwingHigh(candles, left, right, n - 1) {
        SwingHighFits(candles, left, right, n - 1);
        var previous := LastSwingHigh(candles, left, right, n - 1);
        if previous >= 0 {
          SwingHighsAreApart(candles, left, right, previous, n - 1);
        }
      }
    }
  }

  lemma {:induction false} SwingHighFits(candles: seq<Candle>, left: nat, right: nat, p: int)
    requires IsSwingHigh(candles, left, right, p)
    ensures left <= p < |candles| - right
  {
  }

  /** A series has room for only so many swing highs. */
  lemma {:induction false} SwingHighsAreFew(candles: seq<Candle>, left: nat, right: nat)
    requires |candles| >= left + right + 1
    ensures SwingHighCount(candles, left, right, |candles|) * (Min(left, right) + 1)
            <= |candles| - left - right + Min(left, right)
  {
    hide SwingHighCount;
    SwingHighBudget(candles, left, right, |candles|);
    var last := LastSwingHigh(candles, left, right, |candles|);
    if last >= 0 {
      SwingHighFits(candles, left, right, last);
    }
  }

  // ----- Reflection in a horizontal line -----

  /** Mirror a candle in the price `mirror / 2`; the range is unchanged. */
  function ReflectCandle(c: Candle, mirror: real): Candle {
    Candle(c.time, mirror - c.open, mirror - c.low, mirror - c.high, mirror - c.close, c.atr)
  }

  function ReflectCandles(candles: seq<Candle>, mirror: real): seq<Candle> {
    seq(|candles|, i requires 0 <= i < |candles| => ReflectCandle(candles[i], mirror))
  }

  lemma {:induction false} SwingsReflect(candles: seq<Candle>, left: nat, right: nat, mirror: real, p: int)
    ensures IsSwingHigh(ReflectCandles(candles, mirror), left, right, p) <==> IsSwingLow(candles, left, right, p)
    ensures IsSwingLow(ReflectCandles(candles, mirror), left, right, p) <==> IsSwingHigh(candles, left, right, p)
  {
    var r := ReflectCandles(candles, mirror);
    if IsSwingLow(candles, left, right, p) {
      assert forall i :: p - left <= i <= p + right && i != p ==> candles[i].low > candles[p].low;
    }
    if IsSwingHigh(r, left, right, p) {
      forall i | p - left <= i <= p + right && i != p ensures candles[i].low > candles[p].low {
        assert r[i].high < r[p].high;
      }
    }
    if IsSwingLow(r, left, right, p) {
      forall i | p - left <= i <= p + right && i != p ensures candles[i].high < candles[p].high {
        assert r[i].low > r[p].low;
      }
    }
  }

  function SwingLowCount(candles: seq<Candle>, left: nat, right: nat, n: nat): nat {
    if n == 0 then 0
    else SwingLowCount(candles, left, right, n - 1) + if IsSwingLow(candles, left, right, n - 1) then 1 else 0
  }

  lemma {:induction false} SwingCountsReflect(candles: seq<Candle>, left: nat, right: nat, mirror: real, n: nat)
    ensures SwingHighCount(ReflectCandles(candles, mirror), left, right, n) == SwingLowCount(candles, left, right, n)
  {
    if n > 0 {
      SwingCountsReflect(candles, left, right, mirror, n - 1);
      SwingsReflect(candles, left, right, mirror, n - 1);
    }
  }

  /** The same room for swing lows, by reflection. */
  lemma {:induction false} SwingLowsAreFew(candles: seq<Candle>, left: nat, right: nat)
    requires |candles| >= left + right + 1
    ensures SwingLowCount(candles, left, right, |candles|) * (Min(left, right) + 1)
            <= |candles| - left - right + Min(left, right)
  {
    SwingCountsReflect(candles, left, right, 0.0, |candles|);
    SwingHighsAreFew(ReflectCandles(candles, 0.0), left, right);
  }

  // ----- The whole-series classifier -----

  /** A row with its extremes present and its swing prices taken from them, as
      swing detection writes it. */
  predicate Regular(row: SwingRow) {
    && row.high.Some? && row.low.Some?
    && (row.swingHigh ==> row.swingHighPrice in {None, row.high})
    && (row.swingLow ==> row.swingLowPrice in {None, row.low})
  }

  /** The previous swing of each kind, if there was one; its own cell may be missing. */
  datatype Baseline = Baseline(high: Option<Option<real>>, low: Option<Option<real>>)

  function NextBaseline(b: Baseline, row: SwingRow): Baseline {
    Baseline(if row.swingHigh then Some(row.high) else b.high, if row.swingLow then Some(row.low) else b.low)
  }

  /** A comparison with a missing number is false. */
  predicate Exceeds(current: Option<real>, previous: Option<real>) {
    current.Some? && previous.Some? && current.value > previous.value
  }

  function LabelAgainst(b: Baseline, row: SwingRow): Option<Label> {
    if row.swingLow && b.low.Some? then Some(if Exceeds(row.low, b.low.value) then HL else LL)
    else if row.swingHigh && b.high.Some? then Some(if Exceeds(row.high, b.high.value) then HH else LH)
    else None
  }

  /** The `structure` column of one series classified from scratch. */
  function Classified(rows: seq<SwingRow>, b: Baseline): (labels: seq<Option<Label>>)
    ensures |labels| == |rows|
  {
    if rows == [] then [] else [LabelAgainst(b, rows[0])] + Classified(rows[1..], NextBaseline(b, rows[0]))
  }

  const FRESH := Baseline(None, None)

  function BaselineAfter(rows: seq<SwingRow>, b: Baseline): Baseline {
    if rows == [] then b else BaselineAfter(rows[1..], NextBaseline(b, rows[0]))
  }

  lemma {:induction false} ClassifiedAppend(rows: seq<SwingRow>, row: SwingRow, b: Baseline)
    ensures Classified(rows + [row], b) == Classified(rows, b) + [LabelAgainst(BaselineAfter(rows, b), row)]
    ensures BaselineAfter(rows + [row], b) == NextBaseline(BaselineAfter(rows, b), row)
  {
    if rows == [] {
      assert rows + [row] == [row];
    } else {
      assert (rows + [row])[1..] == rows[1..] + [row];
      ClassifiedAppend(rows[1..], row, NextBaseline(b, rows[0]));
    }
  }

  method ClassifyMarketStructure(rows: seq<SwingRow>) returns (labels: seq<Option<Label>>)
    ensures labels == Classified(rows, FRESH)
  {
    labels := [];
    var previousHigh: Option<Option<real>>, previousLow: Option<Option<real>> := None, None;
    for i := 0 to |rows|
      invariant labels == Classified(rows[..i], FRESH)
      invariant Baseline(previousHigh, previousLow) == BaselineAfter(rows[..i], FRESH)
    {
      var tag: Option<Label> := None;
      if rows[i].swingHigh {
        var current := rows[i].high;
        if previousHigh.Some? {
          tag := if Exceeds(current, previousHigh.value) then Some(HH) else Some(LH);
        }
        previousHigh := Some(current);
      }
      if rows[i].swingLow {
        var current := rows[i].low;
        if previousLow.Some? {
          tag := if Exceeds(current, previousLow.value) then Some(HL) else Some(LL);
        }
        previousLow := Some(current);
      }
      ClassifiedAppend(rows[..i], rows[i], FRESH);
      assert rows[..i + 1] == rows[..i] + [rows[i]];
      labels := labels + [tag];
    }
    assert rows[..|rows|] == rows;
  }
}
