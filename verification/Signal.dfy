/** The strategy's gates, and what a proposal that clears them all is worth. */
module Signal {
  import opened Domain
  import O = OrderBlocks
  import Life = OrderBlockLife
  import P = PositionSize
  import opened Selectors

  /** One timeframe's analysis: the trend of its last row, its events and blocks,
      and the closes of its candles. */
  datatype Analysis = Analysis(trend: Option<Direction>, events: seq<MarketEvent>, blocks: seq<O.Block>,
                               closes: seq<real>)

  /** The account, the two higher trends, the two lower analyses and the settings. */
  datatype Inputs = Inputs(
    demo: bool, openPositions: nat, balance: real,
    h4: Option<Direction>, h1: Option<Direction>, m15: Analysis, m5: Analysis,
    lookback: int, riskPercent: real, ratio: real, spec: P.Spec)

  // ----- The local trigger -----

  /** The last close, if a CHoCH and a sweep at or before it lie in the last
      `lookback` candles. */
  function EvaluateTrigger(a: Analysis, d: Direction, lookback: int): (close: Option<real>)
    ensures close.Some? ==> |a.closes| > 0 && close.value == a.closes[|a.closes| - 1]
    ensures close.Some? <==>
              |a.closes| > 0 && exists e, f :: e in a.events && f in a.events && IsChoch(e, d) && IsSweep(f, d)
                                             && |a.closes| - lookback <= f.row <= e.row
  {
    if |a.closes| == 0 then None
    else
      var start := if |a.closes| < lookback then 0 else |a.closes| - lookback;
      var choch := Latest(a.events, (e: MarketEvent) => IsChoch(e, d) && e.row >= start);
      if choch.None? then None
      else
        var row := a.events[choch.value].row;
        var sweep := Latest(a.events, (e: MarketEvent) => IsSweep(e, d) && start <= e.row <= row);
        if sweep.None? then None else Some(a.closes[|a.closes| - 1])
  }

  // ----- The entry zone -----

  function Tolerance(s: O.Shape): real { 0.25 * s.atr }

  predicate InEntryZone(s: O.Shape, entry: real) {
    if s.low <= entry <= s.high then true
    else if s.atr <= 0.0 then false
    else if s.proximal >= s.distal then s.proximal < entry <= s.proximal + Tolerance(s)
    else s.proximal - Tolerance(s) <= entry < s.proximal
  }

  // ----- The gates -----

  /** The gates in the order they are tried. */
  const DEMO_ACCOUNT := 0
  const NO_OPEN_POSITION := 1
  const BIAS := 2
  const AGREEMENT := 3
  const CHOCH_FOUND := 4
  const SWEEP_FOUND := 5
  const BLOCK_FOUND := 6
  const RETRACEMENT := 7
  const LOCAL_TRIGGER := 8
  const ENTRY_ZONE := 9
  const RISK_LEVELS := 10
  const TRADABLE_SIZE := 11
  const ALL := 12

  /** The row of the CHoCH the M15 setup rests on. */
  function ChochOf(inp: Inputs): Option<nat> {
    if inp.h4.None? then None
    else
      var found := EvaluateChoch(inp.m15.trend, inp.m15.events, inp.h4.value);
      if found.None? then None else Some(inp.m15.events[found.value].row)
  }

  function SweepOf(inp: Inputs): Option<nat> {
    if ChochOf(inp).None? then None
    else
      var found := EvaluateSweep(inp.m15.events, inp.h4.value, ChochOf(inp).value);
      if found.None? then None else Some(inp.m15.events[found.value].row)
  }

  function BlockOf(inp: Inputs): Option<O.Block> {
    if ChochOf(inp).None? then None
    else
      var found := FirstLinked(inp.m15.blocks, inp.h4.value, ChochOf(inp).value, 0);
      if found.None? then None else Some(inp.m15.blocks[found.value])
  }

  function EntryOf(inp: Inputs): Option<real> {
    if inp.h4.None? then None else EvaluateTrigger(inp.m5, inp.h4.value, inp.lookback)
  }

  predicate Placed(inp: Inputs) { BlockOf(inp).Some? && EntryOf(inp).Some? }

  function LevelsOf(inp: Inputs): Result<P.Levels, P.LevelError>
    requires Placed(inp)
  {
    P.StructuralLevels(inp.h4.value, EntryOf(inp).value, BlockOf(inp).value.shape.distal, inp.ratio)
  }

  function RequestOf(inp: Inputs): P.Request
    requires Placed(inp)
  {
    P.Request(inp.balance, inp.riskPercent, EntryOf(inp).value, BlockOf(inp).value.shape.distal, inp.spec)
  }

  predicate Clears(inp: Inputs, gate: nat) {
    match gate
    case 0 => inp.demo
    case 1 => inp.openPositions == 0
    case 2 => inp.h4.Some?
    case 3 => inp.h4.Some? && inp.h1 == inp.h4
    case 4 => ChochOf(inp).Some?
    case 5 => SweepOf(inp).Some?
    case 6 => BlockOf(inp).Some?
    case 7 => BlockOf(inp).Some? && Life.Retraced(BlockOf(inp).value.life)
    case 8 => EntryOf(inp).Some?
    case 9 => Placed(inp) && InEntryZone(BlockOf(inp).value.shape, EntryOf(inp).value)
    case 10 => Placed(inp) && LevelsOf(inp).Success?
    case _ => Placed(inp) && Sized(P.CalculatePositionSize(RequestOf(inp)))
  }

  predicate Sized(sizing: Result<P.Sizing, P.SizeError>) { sizing.Success? && sizing.value.sufficient }

  predicate ClearsBefore(inp: Inputs, gate: nat) {
    gate == 0 || (ClearsBefore(inp, gate - 1) && Clears(inp, gate - 1))
  }

  lemma {:induction false} Onward(inp: Inputs, gate: nat)
    requires ClearsBefore(inp, gate) && Clears(inp, gate)
    ensures ClearsBefore(inp, gate + 1)
  {
    hide Clears;
  }

  lemma {:induction false} ClearsEach(inp: Inputs, stop: nat, gate: nat)
    requires ClearsBefore(inp, stop) && gate < stop
    ensures Clears(inp, gate)
  {
    hide Clears;
    if gate < stop - 1 {
      ClearsEach(inp, stop - 1, gate);
    }
  }

  datatype Status = Blocked | NoSetup

  /** Account and risk gates block; the others find no setup. */
  function StatusOf(gate: nat): Status {
    if gate in {DEMO_ACCOUNT, NO_OPEN_POSITION, RISK_LEVELS, TRADABLE_SIZE} then Blocked else NoSetup
  }

  datatype Proposal = Proposal(dir: Direction, entry: real, stop: real, takeProfit: real, size: real)

  /** A sizing error is not caught: it leaves the function. */
  datatype Verdict = Rejected(status: Status, gate: nat) | Raised(error: P.SizeError) | Proposed(proposal: Proposal)

  /** What the steps passed on the way have recorded. */
  datatype Evidence = Evidence(
    choch: Option<nat>, sweep: Option<nat>, block: Option<O.Block>, retracement: Option<bool>, entry: Option<real>)

  const NOTHING := Evidence(None, None, None, None, None)

  /** The evidence of a run that stops at the gate of the given rank. */
  function EvidenceOf(inp: Inputs, stop: nat): Evidence {
    Evidence(
      if stop > CHOCH_FOUND then ChochOf(inp) else None,
      if stop > SWEEP_FOUND then SweepOf(inp) else None,
      if stop > BLOCK_FOUND then BlockOf(inp) else None,
      if stop > BLOCK_FOUND then Some(stop > RETRACEMENT) else None,
      if stop > LOCAL_TRIGGER then EntryOf(inp) else None)
  }

  lemma {:induction false} PricesCleared(inp: Inputs)
    requires ClearsBefore(inp, ALL)
    ensures Placed(inp) && InEntryZone(BlockOf(inp).value.shape, EntryOf(inp).value)
    ensures LevelsOf(inp).Success? && Sized(P.CalculatePositionSize(RequestOf(inp)))
  {
    hide ClearsBefore, BlockOf, EntryOf, LevelsOf, RequestOf, InEntryZone, P.CalculatePositionSize, Sized;
    ClearsEach(inp, ALL, ENTRY_ZONE);
    ClearsEach(inp, ALL, RISK_LEVELS);
    ClearsEach(inp, ALL, TRADABLE_SIZE);
  }

  function ProposalOf(inp: Inputs): Proposal
    requires ClearsBefore(inp, ALL)
  {
    hide ClearsBefore, EntryOf, ChochOf, FirstLinked, P.CalculatePositionSize, P.StructuralLevels, InEntryZone;
    PricesCleared(inp);
    Proposal(inp.h4.value, EntryOf(inp).value, BlockOf(inp).value.shape.distal,
             LevelsOf(inp).value.takeProfit, P.CalculatePositionSize(RequestOf(inp)).value.size)
  }

  predicate Refused(inp: Inputs, gate: nat) { gate < ALL && !Clears(inp, gate) && ClearsBefore(inp, gate) }

  /** Rejected at the first gate it does not clear; proposed when it clears all. */
  predicate FirstFailure(inp: Inputs, v: Verdict) {
    match v
    case Rejected(status, gate) =>
      && status == StatusOf(gate) && Refused(inp, gate)
      && (gate == TRADABLE_SIZE ==> Placed(inp) && P.CalculatePositionSize(RequestOf(inp)).Success?)
    case Raised(error) =>
      && ClearsBefore(inp, TRADABLE_SIZE) && Placed(inp)
      && P.CalculatePositionSize(RequestOf(inp)) == Failure(error)
    case Proposed(proposal) => ClearsBefore(inp, ALL) && proposal == ProposalOf(inp)
  }

  /** The rank of the gate a verdict stops at. */
  function Stop(v: Verdict): nat {
    match v
    case Rejected(_, gate) => gate
    case Raised(_) => TRADABLE_SIZE
    case Proposed(_) => ALL
  }

  /** Account, open positions and the two higher trends. */
  method CheckContext(inp: Inputs) returns (stop: nat)
    ensures stop <= CHOCH_FOUND
    ensures if stop < CHOCH_FOUND then Refused(inp, stop) else ClearsBefore(inp, stop)
  {
    assert ClearsBefore(inp, DEMO_ACCOUNT);
    hide ClearsBefore;
    if !inp.demo {
      return DEMO_ACCOUNT;
    }
    Onward(inp, DEMO_ACCOUNT);
    if inp.openPositions > 0 {
      return NO_OPEN_POSITION;
    }
    Onward(inp, NO_OPEN_POSITION);
    if inp.h4.None? {
      return BIAS;
    }
    Onward(inp, BIAS);
    if inp.h1 != inp.h4 {
      return AGREEMENT;
    }
    Onward(inp, AGREEMENT);
    return CHOCH_FOUND;
  }

  /** CHoCH, sweep, block and retracement on M15. */
  method FindSetup(inp: Inputs) returns (stop: nat, evidence: Evidence)
    requires ClearsBefore(inp, CHOCH_FOUND) && inp.h4.Some?
    ensures CHOCH_FOUND <= stop <= LOCAL_TRIGGER
    ensures if stop < LOCAL_TRIGGER then Refused(inp, stop) else ClearsBefore(inp, stop)
    ensures evidence == EvidenceOf(inp, stop)
  {
    hide ClearsBefore, EvaluateTrigger, EvaluateSweep, EvaluateChoch, FirstLinked, Life.Retraced;
    evidence := NOTHING;
    var d := inp.h4.value;
    var choch := EvaluateChoch(inp.m15.trend, inp.m15.events, d);
    if choch.None? {
      return CHOCH_FOUND, evidence;
    }
    Onward(inp, CHOCH_FOUND);
    var row := inp.m15.events[choch.value].row;
    evidence := evidence.(choch := Some(row));
    var sweep := EvaluateSweep(inp.m15.events, d, row);
    if sweep.None? {
      return SWEEP_FOUND, evidence;
    }
    Onward(inp, SWEEP_FOUND);
    evidence := evidence.(sweep := Some(inp.m15.events[sweep.value].row));
    var found := EvaluateOrderBlock(inp.m15.blocks, d, row);
    if found.None? {
      return BLOCK_FOUND, evidence;
    }
    Onward(inp, BLOCK_FOUND);
    var block := inp.m15.blocks[found.value];
    evidence := evidence.(block := Some(block));
    if !Life.Retraced(block.life) {
      evidence := evidence.(retracement := Some(false));
      return RETRACEMENT, evidence;
    }
    Onward(inp, RETRACEMENT);
    evidence := evidence.(retracement := Some(true));
    return LOCAL_TRIGGER, evidence;
  }

  /** The local trigger, and the trade the block supports. */
  method PlanTrade(inp: Inputs, block: O.Block) returns (v: Verdict, entry: Option<real>)
    requires ClearsBefore(inp, LOCAL_TRIGGER) && inp.h4.Some? && BlockOf(inp) == Some(block)
    ensures FirstFailure(inp, v) && Stop(v) >= LOCAL_TRIGGER
    ensures entry == if Stop(v) > LOCAL_TRIGGER then EntryOf(inp) else None
  {
    hide ClearsBefore, EvaluateTrigger, InEntryZone, P.StructuralLevels, P.CalculatePositionSize, BlockOf;
    var d := inp.h4.value;
    entry := EvaluateTrigger(inp.m5, d, inp.lookback);
    if entry.None? {
      return Rejected(NoSetup, LOCAL_TRIGGER), entry;
    }
    Onward(inp, LOCAL_TRIGGER);
    if !InEntryZone(block.shape, entry.value) {
      return Rejected(NoSetup, ENTRY_ZONE), entry;
    }
    Onward(inp, ENTRY_ZONE);
    var distal := block.shape.distal;
    var levels := P.StructuralLevels(d, entry.value, distal, inp.ratio);
    if levels.Failure? {
      return Rejected(Blocked, RISK_LEVELS), entry;
    }
    Onward(inp, RISK_LEVELS);
    var sizing := P.CalculatePositionSize(P.Request(inp.balance, inp.riskPercent, entry.value, distal, inp.spec));
    if sizing.Failure? {
      return Raised(sizing.error), entry;
    }
    if !sizing.value.sufficient {
      return Rejected(Blocked, TRADABLE_SIZE), entry;
    }
    Onward(inp, TRADABLE_SIZE);
    return Proposed(Proposal(d, entry.value, distal, levels.value.takeProfit, sizing.value.size)), entry;
  }

  /** The whole sequence; nothing is ever ordered. */
  method GenerateSignal(inp: Inputs) returns (v: Verdict, evidence: Evidence)
    ensures FirstFailure(inp, v)
    ensures evidence == EvidenceOf(inp, Stop(v))
  {
    var stop := CheckContext(inp);
    if stop < CHOCH_FOUND {
      return Rejected(StatusOf(stop), stop), NOTHING;
    }
    ClearsEach(inp, CHOCH_FOUND, BIAS);
    stop, evidence := FindSetup(inp);
    if stop < LOCAL_TRIGGER {
      return Rejected(StatusOf(stop), stop), evidence;
    }
    ClearsEach(inp, LOCAL_TRIGGER, BLOCK_FOUND);
    var entry: Option<real>;
    hide ClearsBefore, EvaluateTrigger, P.CalculatePositionSize, FirstLinked, EvaluateChoch, EvaluateSweep;
    v, entry := PlanTrade(inp, evidence.block.value);
    hide FirstFailure;
    evidence := evidence.(entry := entry);
  }

  lemma {:induction false} RaisedIsNotSized(inp: Inputs)
    requires Placed(inp) && P.CalculatePositionSize(RequestOf(inp)).Failure?
    ensures !Clears(inp, TRADABLE_SIZE)
  {
    hide Placed, RequestOf, P.CalculatePositionSize;
  }

  lemma {:induction false} StopsAtMost(inp: Inputs, v: Verdict, w: Verdict)
    requires FirstFailure(inp, v) && FirstFailure(inp, w)
    ensures Stop(v) <= Stop(w)
  {
    hide Clears, ClearsBefore, ProposalOf, P.CalculatePositionSize, Placed, RequestOf;
    if Stop(w) < Stop(v) {
      ClearsEach(inp, Stop(v), Stop(w));
    }
    if w.Raised? {
      RaisedIsNotSized(inp);
    }
  }

  /** The gates determine the verdict. */
  lemma {:induction false} VerdictIsUnique(inp: Inputs, v: Verdict, w: Verdict)
    requires FirstFailure(inp, v) && FirstFailure(inp, w)
    ensures v == w
  {
    hide Clears, ClearsBefore, ProposalOf, P.CalculatePositionSize, Placed, RequestOf;
    StopsAtMost(inp, v, w);
    StopsAtMost(inp, w, v);
  }
}
