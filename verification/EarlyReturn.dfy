/** The sample series with every kind of event making blocks: the block of the MSS is
    touched before the CHoCH confirms it, and a proposal still rests on it. */
module EarlyReturn {
  import opened Domain
  import O = OrderBlocks
  import P = PositionSize
  import Signal
  import Pipeline
  import opened SampleRun

  const KINDS: set<EventKind> := {BOS, MSS, CHoCH}

  const CFG := Enabling(KINDS).blocks

  /** The block of the MSS of row 6, on the candle of row 5. */
  const EARLY_SHAPE :=
    O.Shape(1, Bullish, 6, 5, 15.0, 10.0, 14.0, 11.0, 15.0, 10.0, O.SourceId(MSS, 6), Some(17.0), 9.0, 9.0, 1.0)

  const EARLY_BORN := O.Block(EARLY_SHAPE, O.Newborn(O.Provisional))

  const EARLY_TOUCHED := O.MarkMitigated(EARLY_BORN, 7, 10.5)

  const EARLY := O.MarkConfirmed(EARLY_TOUCHED, 8, O.SourceId(CHoCH, 8))

  /** The block of the CHoCH, now the second one. */
  const OWN_BORN := BORN.(shape := SHAPE.(id := 2))

  const OWN := O.MarkMitigated(OWN_BORN, 9, 13.0)

  /** The engine before row `p`. */
  function EngineOf(p: nat): O.Engine {
    match p
    case 7 => O.Engine([EARLY_BORN], Some(6))
    case 8 => O.Engine([EARLY_TOUCHED], Some(6))
    case 9 => O.Engine([EARLY, OWN_BORN], None)
    case 10 => O.Engine([EARLY, OWN], None)
    case _ => O.Engine([], None)
  }

  // ----- Row by row -----

  lemma {:induction false} QuietStep(rows: seq<O.ObRow>, p: nat)
    requires |rows| == 10 && p < 6 && Reads(rows[p], p)
    ensures O.Process(O.Engine([], None), rows, p, CFG) == O.Engine([], None)
  {
    assert rows[p].event.None?;
    hide Reads;
  }

  lemma {:induction false} SourceIsRow5(rows: seq<O.ObRow>)
    requires |rows| == 10 && Reads(rows[5], 5)
    ensures O.SourceCandle(rows, 6, Bullish, 5) == Some(5)
  {
    assert O.Opposes(rows[5], Bullish);
  }

  lemma {:induction false} ShiftBodyIsStrong(rows: seq<O.ObRow>)
    requires |rows| == 10 && Reads(rows[6], 6)
    ensures O.StrongBody(rows[6], Bullish, 0.0)
  {
    assert O.BodyRatio(14.0, 20.0, 13.0, 19.0) == 5.0 / 7.0;
  }

  lemma {:induction false} EarlyIsBorn(rows: seq<O.ObRow>)
    requires |rows| == 10 && Reads(rows[5], 5) && Reads(rows[6], 6)
    ensures O.Born(rows, 6, CFG, 1) == Some(EARLY_BORN)
    ensures rows[6].event == Some(MSS)
  {
    hide O.SourceCandle, O.StrongBody, O.SweptBetween;
    SourceIsRow5(rows);
    ShiftBodyIsStrong(rows);
    assert O.Displacement(rows[5], 19.0, Bullish) == 9.0;
  }

  lemma {:induction false} NothingSurveyed(rows: seq<O.ObRow>)
    requires |rows| == 10 && rows[6].event == Some(MSS)
    ensures
      var stage := O.Survey(O.Engine([], None), rows, 6, CFG);
      stage.aged == [] && !stage.skip && stage.pending.None?
  {
  }

  lemma {:induction false} ShiftStep(rows: seq<O.ObRow>)
    requires |rows| == 10 && Reads(rows[5], 5) && Reads(rows[6], 6)
    ensures O.Process(EngineOf(6), rows, 6, CFG) == EngineOf(7)
  {
    hide O.Survey, O.Born, Reads;
    EarlyIsBorn(rows);
    NothingSurveyed(rows);
  }

  lemma {:induction false} TouchStep(rows: seq<O.ObRow>)
    requires |rows| == 10 && Reads(rows[7], 7)
    ensures O.Process(EngineOf(7), rows, 7, CFG) == EngineOf(8)
  {
    assert O.Priced(EARLY_BORN, rows[7], 7, O.Clearance(CFG)) == EARLY_TOUCHED;
    assert O.PricedAll([EARLY_BORN], rows[7], 7, O.Clearance(CFG)) == [EARLY_TOUCHED];
    assert O.CascadedAll([EARLY_TOUCHED], rows[7], 7) == [EARLY_TOUCHED];
    assert O.AgedAll([EARLY_TOUCHED], 7, None) == [EARLY_TOUCHED];
  }

  lemma {:induction false} ConfirmSurvey(rows: seq<O.ObRow>)
    requires |rows| == 10 && Reads(rows[7], 7) && Reads(rows[8], 8)
    ensures
      var stage := O.Survey(EngineOf(8), rows, 8, CFG);
      stage.aged == [EARLY] && !stage.skip && stage.pending.None?
    ensures rows[8].event == Some(CHoCH)
  {
    SourceIsRow7(rows);
    hide O.SourceCandle;
    assert O.PricedAll([EARLY_TOUCHED], rows[8], 8, O.Clearance(CFG)) == [EARLY_TOUCHED];
    assert O.CascadedAll([EARLY_TOUCHED], rows[8], 8) == [EARLY_TOUCHED];
    assert O.FindProvisional([EARLY_TOUCHED], 6, 0) == Some(0);
    assert O.Promote([EARLY_TOUCHED], Some(0), 8) == [EARLY];
    assert O.AgedAll([EARLY], 8, None) == [EARLY];
  }

  lemma {:induction false} ConfirmStep(rows: seq<O.ObRow>)
    requires |rows| == 10 && Reads(rows[7], 7) && Reads(rows[8], 8)
    ensures O.Process(EngineOf(8), rows, 8, CFG) == EngineOf(9)
  {
    hide O.Survey, O.Born, Reads;
    ConfirmSurvey(rows);
    BornIs(rows, KINDS, 2);
  }

  lemma {:induction false} ReturnStep(rows: seq<O.ObRow>)
    requires |rows| == 10 && Reads(rows[9], 9)
    ensures O.Process(EngineOf(9), rows, 9, CFG) == EngineOf(10)
  {
    var before, after := [EARLY, OWN_BORN], [EARLY, OWN];
    assert O.Priced(OWN_BORN, rows[9], 9, O.Clearance(CFG)) == OWN;
    assert O.PricedAll(before, rows[9], 9, O.Clearance(CFG)) == after;
    assert O.CascadedAll(after, rows[9], 9) == after;
    assert O.AgedAll(after, 9, None) == after;
  }

  lemma {:induction false} Step(p: nat)
    requires p < 10
    ensures O.Process(EngineOf(p), ObRows(), p, CFG) == EngineOf(p + 1)
  {
    hide O.Process, Reads, ObRows;
    ObRowReads(p);
    if p < 6 {
      QuietStep(ObRows(), p);
    } else {
      ObRowReads(p - 1);
      assert p in {6, 7, 8, 9};
      match p
      case 6 => ShiftStep(ObRows());
      case 7 => TouchStep(ObRows());
      case 8 => ConfirmStep(ObRows());
      case _ => ReturnStep(ObRows());
    }
  }

  lemma {:induction false} EnginesAre(p: nat)
    requires p <= 10
    ensures O.EngineAt(ObRows(), CFG, p) == EngineOf(p)
  {
    hide O.Process, ObRows, EngineOf;
    if p == 0 {
      NoBlocksAtFirst();
    } else {
      EnginesAre(p - 1);
      Step(p - 1);
    }
  }

  lemma {:induction false} NoBlocksAtFirst()
    ensures EngineOf(0) == O.Engine([], None)
  {
  }

  lemma {:induction false} BlocksOfAllKinds()
    ensures SampleBlocks(KINDS) == [EARLY, OWN]
  {
    hide O.EngineAt, Pipeline.ObRows;
    SameColumns(KINDS);
    EnginesAre(10);
  }

  // ----- The proposal -----

  lemma {:induction false} EarlySize()
    ensures Signal.Sized(P.CalculatePositionSize(P.Request(10000.0, 1.0, 14.5, 10.0, SPEC)))
  {
    var r := P.Request(10000.0, 1.0, 14.5, 10.0, SPEC);
    assert P.RawSize(r) == 8.0 / 9.0;
    assert P.Steps(r) == 1;
    assert P.Size(1, 0.5) == 0.5;
    assert P.Round8(0.5) == 0.5;
  }

  lemma {:induction false} EarlyIsTradable()
    ensures Tradable(EARLY)
  {
    hide P.CalculatePositionSize;
    EarlySize();
  }

  predicate TouchedOn(s: O.Shape, p: nat)
    requires p < 10
  {
    O.HasPrices(ObRows()[p]) && O.Touched(s, ObRows()[p])
  }

  lemma {:induction false} TouchedAgain()
    ensures TouchedOn(EARLY_SHAPE, 9)
  {
    hide Pipeline.ObRows;
    ObRowReads(9);
  }

  /** A block touched on row 7 is confirmed by the CHoCH of row 8 and carries a
      proposal, so its return came before the CHoCH; and the touch of row 9 is not
      counted as a second mitigation. */
  lemma {:induction false} ReturnComesFirst()
    ensures SampleBlocks(KINDS) == [EARLY, OWN] && ProposedOn(KINDS, EARLY)
    ensures EARLY.life.mitigatedIndex == Some(7) && EARLY.life.confirmedIndex == Some(8) && !O.IsActive(EARLY.life)
    ensures TouchedOn(EARLY.shape, 9) && EARLY.life.touches == 1
  {
    hide ProposedOn, Tradable, SampleBlocks, TouchedOn;
    BlocksOfAllKinds();
    EarlyIsTradable();
    SampleIsProposed(KINDS, EARLY);
    TouchedAgain();
  }
}
