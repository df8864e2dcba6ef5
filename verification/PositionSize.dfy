/** Position sizing and structural trade levels. */
module PositionSize {
  import opened Domain

  // ----- Rounding -----

  const SCALE := 100000000.0

  /** Round half to even at eight decimals. */
  function Round8(x: real): real {
    var scaled := x * SCALE;
    var floor := scaled.Floor;
    var rest := scaled - floor as real;
    var nearest := if rest < 0.5 || (rest == 0.5 && floor % 2 == 0) then floor else floor + 1;
    nearest as real / SCALE
  }

  /** Half a unit of the eighth decimal. */
  const HALF_UNIT := 0.000000005

  lemma {:induction false} RoundingIsClose(x: real)
    ensures x - HALF_UNIT <= Round8(x) <= x + HALF_UNIT
  {
    var scaled := x * SCALE;
    var floor := scaled.Floor;
    assert floor as real <= scaled < floor as real + 1.0;
    assert Round8(x) * SCALE - scaled <= 0.5 && scaled - Round8(x) * SCALE <= 0.5;
  }

  // ----- Sizing -----

  datatype Spec = Spec(tickSize: real, tickValue: real, volumeMin: real, volumeMax: real, volumeStep: real)

  datatype Request = Request(balance: real, riskPercent: real, entry: real, stop: real, spec: Spec)

  datatype SizeError =
    | BadBalance | BadRiskPercent | BadPrices | BadTickSize | BadTickValue | BadStep | BadLimits | NoStopDistance

  datatype Sizing = Sizing(riskAmount: real, raw: real, size: real, sufficient: bool)

  function Abs(x: real): real { if x < 0.0 then -x else x }

  /** The guards, in the order they are raised. */
  function Refusal(r: Request): Option<SizeError> {
    if r.balance <= 0.0 then Some(BadBalance)
    else if !(0.0 < r.riskPercent <= 100.0) then Some(BadRiskPercent)
    else if r.entry <= 0.0 || r.stop <= 0.0 then Some(BadPrices)
    else if r.spec.tickSize <= 0.0 then Some(BadTickSize)
    else if r.spec.tickValue <= 0.0 then Some(BadTickValue)
    else if r.spec.volumeStep <= 0.0 then Some(BadStep)
    else if r.spec.volumeMin <= 0.0 || r.spec.volumeMax <= 0.0 || r.spec.volumeMin > r.spec.volumeMax
      then Some(BadLimits)
    else if r.entry == r.stop then Some(NoStopDistance)
    else None
  }

  const EPSILON := 0.000000001

  function StopDistance(r: Request): real { Abs(r.entry - r.stop) }

  function RiskAmount(r: Request): real { r.balance * (r.riskPercent / 100.0) }

  /** What one lot loses when price moves from entry to stop. */
  function LossPerLot(r: Request): (loss: real)
    requires Refusal(r).None?
    ensures loss > 0.0
  {
    var perUnit := r.spec.tickValue / r.spec.tickSize;
    assert perUnit > 0.0;
    StopDistance(r) * perUnit
  }

  function RawSize(r: Request): real
    requires Refusal(r).None?
  {
    RiskAmount(r) / LossPerLot(r)
  }

  function Steps(r: Request): int
    requires Refusal(r).None?
  {
    (RawSize(r) / r.spec.volumeStep + EPSILON).Floor
  }

  function Size(steps: int, step: real): real { steps as real * step }

  function Stepped(r: Request): real
    requires Refusal(r).None?
  {
    Round8(Size(Steps(r), r.spec.volumeStep))
  }

  function CalculatePositionSize(r: Request): (result: Result<Sizing, SizeError>)
    ensures result.Success? <==> Refusal(r).None?
    ensures result.Success? ==>
              && 0.0 <= result.value.size <= r.spec.volumeMax
              && (result.value.sufficient <==> result.value.size >= r.spec.volumeMin)
              && (!result.value.sufficient <==> result.value.size == 0.0)
  {
    if Refusal(r).Some? then Failure(Refusal(r).value)
    else if Stepped(r) < r.spec.volumeMin then Success(Sizing(RiskAmount(r), RawSize(r), 0.0, false))
    else Success(Sizing(RiskAmount(r), RawSize(r),
                        if Stepped(r) < r.spec.volumeMax then Stepped(r) else r.spec.volumeMax, true))
  }

  lemma {:induction false} Scale(a: real, b: real, k: real)
    requires a <= b && k >= 0.0
    ensures a * k <= b * k
  {
  }

  lemma {:induction false} StepBounds(steps: int, raw: real, step: real)
    requires step > 0.0 && steps as real <= raw / step + EPSILON < steps as real + 1.0
    ensures Size(steps, step) <= raw + EPSILON * step
    ensures raw + EPSILON * step < Size(steps, step) + step
  {
    var s, ratio := steps as real, raw / step;
    var gap := ratio + EPSILON - s;
    Distribute(s, gap - EPSILON, step);
    Distribute(gap, -EPSILON, step);
    assert ratio == s + (gap - EPSILON);
    calc {
      raw;
      ratio * step;
      (s + (gap - EPSILON)) * step;
      s * step + (gap - EPSILON) * step;
      s * step + gap * step - EPSILON * step;
    }
    assert 0.0 <= gap * step;
    StrictScale(gap, 1.0, step);
    assert Size(steps, step) == s * step;
  }

  lemma {:induction false} Distribute(a: real, b: real, k: real)
    ensures (a + b) * k == a * k + b * k
  {
  }

  /** The stepped size stays within one epsilon of a step, and half a unit of
      rounding, above the risk-correct size, and one more step would exceed it. */
  lemma {:induction false} SteppedNearRaw(r: Request)
    requires Refusal(r).None?
    ensures Stepped(r) <= RawSize(r) + EPSILON * r.spec.volumeStep + HALF_UNIT
    ensures Stepped(r) + r.spec.volumeStep + HALF_UNIT > RawSize(r) + EPSILON * r.spec.volumeStep
  {
    hide RawSize, Round8, Size;
    StepBounds(Steps(r), RawSize(r), r.spec.volumeStep);
    RoundingIsClose(Size(Steps(r), r.spec.volumeStep));
  }

  lemma {:induction false} StrictScale(a: real, b: real, k: real)
    requires a < b && k > 0.0
    ensures a * k < b * k
  {
  }

  /** A sufficient size is tradable, and its loss at the stop exceeds the risk
      amount by no more than the epsilon step and the rounding unit can add. */
  lemma {:induction false} SufficientSizeRespectsRisk(r: Request)
    requires CalculatePositionSize(r).Success? && CalculatePositionSize(r).value.sufficient
    ensures
      var s := CalculatePositionSize(r).value;
      && r.spec.volumeMin <= s.size <= r.spec.volumeMax
      && s.size * LossPerLot(r) <= s.riskAmount + (EPSILON * r.spec.volumeStep + HALF_UNIT) * LossPerLot(r)
  {
    var s, loss := CalculatePositionSize(r).value, LossPerLot(r);
    SteppedNearRaw(r);
    var slack := EPSILON * r.spec.volumeStep + HALF_UNIT;
    Scale(s.size, RawSize(r) + slack, loss);
    assert RawSize(r) * loss == RiskAmount(r);
    assert (RawSize(r) + slack) * loss == RawSize(r) * loss + slack * loss;
  }

  /** Below the upper clamp no tradable step is wasted: one more would risk more
      than asked, up to the rounding unit. */
  lemma {:induction false} OneMoreStepExceedsRisk(r: Request)
    requires CalculatePositionSize(r).Success?
    ensures (Stepped(r) + r.spec.volumeStep + HALF_UNIT) * LossPerLot(r) > RiskAmount(r)
    ensures
      CalculatePositionSize(r).value.sufficient && CalculatePositionSize(r).value.size < r.spec.volumeMax ==>
        CalculatePositionSize(r).value.size == Stepped(r)
  {
    var loss := LossPerLot(r);
    SteppedNearRaw(r);
    assert RawSize(r) * loss == RiskAmount(r);
    assert EPSILON * r.spec.volumeStep > 0.0;
    StrictScale(RawSize(r), Stepped(r) + r.spec.volumeStep + HALF_UNIT, loss);
  }

  /** The size is refused exactly when the stepped size is below the broker's
      minimum, and then the risk-correct size is less than a step above it. */
  lemma {:induction false} InsufficientMeansTooSmall(r: Request)
    requires CalculatePositionSize(r).Success?
    ensures !CalculatePositionSize(r).value.sufficient ==>
              && CalculatePositionSize(r).value.size == 0.0
              && RawSize(r) < r.spec.volumeMin + r.spec.volumeStep + HALF_UNIT
    ensures RawSize(r) >= r.spec.volumeMin + r.spec.volumeStep + HALF_UNIT ==> CalculatePositionSize(r).value.sufficient
  {
    SteppedNearRaw(r);
    assert EPSILON * r.spec.volumeStep > 0.0;
  }

  // ----- Structural levels -----

  datatype Levels = Levels(entry: real, stop: real, takeProfit: real, distance: real, ratio: real)

  datatype LevelError = BadEntry | BadStop | BadRatio | StopOnWrongSide

  /** The take-profit at `ratio` times the structural stop distance. */
  function StructuralLevels(d: Direction, entry: real, stop: real, ratio: real): (r: Result<Levels, LevelError>)
    ensures r.Success? <==>
              entry > 0.0 && stop > 0.0 && ratio > 0.0 && if d == Bullish then stop < entry else entry < stop
    ensures r.Success? && d == Bullish ==>
              stop < entry < r.value.takeProfit && r.value.takeProfit - entry == ratio * (entry - stop)
    ensures r.Success? && d == Bearish ==>
              r.value.takeProfit < entry < stop && entry - r.value.takeProfit == ratio * (stop - entry)
  {
    if entry <= 0.0 then Failure(BadEntry)
    else if stop <= 0.0 then Failure(BadStop)
    else if ratio <= 0.0 then Failure(BadRatio)
    else if d == Bullish then
      if stop >= entry then Failure(StopOnWrongSide)
      else
        var distance := entry - stop;
        assert distance * ratio > 0.0;
        Success(Levels(entry, stop, entry + distance * ratio, distance, ratio))
    else if stop <= entry then Failure(StopOnWrongSide)
    else
      var distance := stop - entry;
      assert distance * ratio > 0.0;
      Success(Levels(entry, stop, entry - distance * ratio, distance, ratio))
  }
}
