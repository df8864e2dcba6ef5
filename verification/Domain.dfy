/** Vocabulary shared by every engine: directions, swing labels, structure
    events and the state names written to the result columns. */
module Domain {

  datatype Option<+T> = None | Some(value: T)

  datatype Result<+T, +E> = Success(value: T) | Failure(error: E)

  type Positive = x: real | x > 0.0 witness 1.0

  datatype Direction = Bullish | Bearish

  function Opposite(d: Direction): Direction {
    if d == Bullish then Bearish else Bullish
  }

  /** Higher high, lower high, higher low, lower low. */
  datatype Label = HH | LH | HL | LL

  datatype EventKind = BOS | MSS | CHoCH | MSSInvalidated

  /** The five values of the `structure_state` column. */
  datatype StructureState = NeutralState | BullishState | BearishState | MssBullish | MssBearish

  datatype LevelStatus = Active | Broken

  datatype LevelSource = FromHL | FromLH | FromLatestSwing

  datatype ConfirmationStep = HLConfirmed | HLToHHConfirmed | LHConfirmed | LHToLLConfirmed

  /** A validated candle with its indicator column. */
  datatype Candle = Candle(time: int, open: real, high: real, low: real, close: real, atr: Option<real>)

  /** A pass over a list that has reached position `i`. */
  function Mixed<T>(after: seq<T>, before: seq<T>, i: nat): (m: seq<T>)
    requires i <= |after| == |before|
    ensures |m| == |before|
    ensures i < |m| ==> m[i] == before[i]
  {
    after[..i] + before[i..]
  }

  lemma {:induction false} MixedStep<T>(after: seq<T>, before: seq<T>, i: nat)
    requires i < |after| == |before|
    ensures Mixed(after, before, i)[i := after[i]] == Mixed(after, before, i + 1)
  {
  }

  lemma {:induction false} MixedEnds<T>(after: seq<T>, before: seq<T>)
    requires |after| == |before|
    ensures Mixed(after, before, 0) == before && Mixed(after, before, |before|) == after
  {
  }
}
