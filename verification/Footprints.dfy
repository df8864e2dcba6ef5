/** One footprint, one block: what promotion and deduplication guarantee over whole
    runs of the Order Block engine. */
module Footprints {
  import opened Domain
  import S = Structure
  import E = StructureEvents
  import opened OrderBlocks
  import L = OrderBlockLife
  import opened Provisional

  // ----- Blocks of a run -----

  /** Later rows keep every block in its place and what it is. */
  lemma {:induction false} BlocksPersist(rows: seq<ObRow>, cfg: Settings, n: nat, m: nat, i: nat)
    requires n <= m <= |rows| && i < |EngineAt(rows, cfg, n).blocks|
    ensures i < |EngineAt(rows, cfg, m).blocks|
    ensures EngineAt(rows, cfg, m).blocks[i].shape == EngineAt(rows, cfg, n).blocks[i].shape
    decreases m
  {
    hide EngineAt, Process, Survey;
    if n < m {
      BlocksPersist(rows, cfg, n, m - 1, i);
      var s := EngineAt(rows, cfg, m - 1);
      L.NextRow(rows, cfg, m);
      L.NewbornRow(s, rows, m - 1, cfg);
      ShapesStay(s, rows, m - 1, cfg, i);
    }
  }

  /** The block at `i` was born on the row it records: it was the first new block
      after `i` earlier ones, and no promotion stood in for it. */
  predicate BornAt(rows: seq<ObRow>, cfg: Settings, i: nat, s: Shape)
    requires s.created < |rows|
  {
    var before := EngineAt(rows, cfg, s.created);
    var born := Born(rows, s.created, cfg, i + 1);
    && |before.blocks| == i && !Survey(before, rows, s.created, cfg).skip
    && born.Some? && born.value.shape == s
    && i < |EngineAt(rows, cfg, s.created + 1).blocks|
    && EngineAt(rows, cfg, s.created + 1).blocks[i].shape == s
  }

  lemma {:induction false} BlocksAreBorn(rows: seq<ObRow>, cfg: Settings, p: nat, i: nat)
    requires p <= |rows| && i < |EngineAt(rows, cfg, p).blocks|
    ensures var s := EngineAt(rows, cfg, p).blocks[i].shape; s.created < p && BornAt(rows, cfg, i, s)
  {
    hide Process, Survey, Born;
    assert EngineAt(rows, cfg, 0).blocks == [];
    var s := EngineAt(rows, cfg, p - 1);
    L.NextRow(rows, cfg, p);
    L.NewbornRow(s, rows, p - 1, cfg);
    hide EngineAt;
    if i < |s.blocks| {
      BlocksAreBorn(rows, cfg, p - 1, i);
      ShapesStay(s, rows, p - 1, cfg, i);
    }
  }

  // ----- Promotion is one-way and happens at most once -----

  /** Standing, confirming event and confirming row. */
  datatype Backing = Backing(standing: Standing, event: Option<SourceId>, row: Option<nat>)

  function BackingOf(l: Life): Backing { Backing(l.standing, l.confirmedBy, l.confirmedIndex) }

  /** A row changes a backing only by promoting a provisional block. */
  lemma {:induction false} BackingStep(s: Engine, rows: seq<ObRow>, position: nat, cfg: Settings, i: nat)
    requires position < |rows| && i < |s.blocks|
    ensures
      var before, after := s.blocks[i].life, Process(s, rows, position, cfg).blocks;
      && i < |after|
      && if Survey(s, rows, position, cfg).promoted == Some(i)
         then before.standing == Provisional
              && BackingOf(after[i].life) == Backing(Confirmed, Some(SourceId(CHoCH, position)), Some(position))
         else BackingOf(after[i].life) == BackingOf(before)
  {
    L.NewbornRow(s, rows, position, cfg);
    var stage := Survey(s, rows, position, cfg);
    hide Process, FindProvisional, SourceCandle;
    assert stage.cascaded[i].life.standing == s.blocks[i].life.standing
           && BackingOf(stage.cascaded[i].life) == BackingOf(s.blocks[i].life);
    assert BackingOf(stage.aged[i].life) == BackingOf(stage.confirmed[i].life);
  }

  /** Once confirmed, a block keeps its standing, its confirming event and its
      confirming row for the rest of the run. */
  lemma {:induction false} ConfirmedOnce(rows: seq<ObRow>, cfg: Settings, n: nat, m: nat, i: nat)
    requires n <= m <= |rows| && i < |EngineAt(rows, cfg, n).blocks|
    requires EngineAt(rows, cfg, n).blocks[i].life.standing == Confirmed
    ensures i < |EngineAt(rows, cfg, m).blocks|
    ensures BackingOf(EngineAt(rows, cfg, m).blocks[i].life) == BackingOf(EngineAt(rows, cfg, n).blocks[i].life)
    decreases m
  {
    hide EngineAt, Process, Survey;
    if n < m {
      ConfirmedOnce(rows, cfg, n, m - 1, i);
      L.NextRow(rows, cfg, m);
      BackingStep(EngineAt(rows, cfg, m - 1), rows, m - 1, cfg, i);
    }
  }

  /** Block `i` was provisional before the row that confirmed it, and after that row it
      had the backing it has now. */
  predicate ConfirmedBy(rows: seq<ObRow>, cfg: Settings, p: nat, i: nat, now: Backing)
    requires p <= |rows| && now.row.Some?
  {
    var r := now.row.value;
    && r < p && now.event == Some(SourceId(CHoCH, r))
    && i < |EngineAt(rows, cfg, r).blocks| && EngineAt(rows, cfg, r).blocks[i].life.standing == Provisional
    && i < |EngineAt(rows, cfg, r + 1).blocks| && BackingOf(EngineAt(rows, cfg, r + 1).blocks[i].life) == now
  }

  lemma {:induction false} ConfirmedOnItsRow(rows: seq<ObRow>, cfg: Settings, p: nat, i: nat)
    requires p <= |rows| && i < |EngineAt(rows, cfg, p).blocks|
    ensures
      var now := BackingOf(EngineAt(rows, cfg, p).blocks[i].life);
      now.row.Some? ==> ConfirmedBy(rows, cfg, p, i, now)
  {
    hide Process, Survey;
    assert EngineAt(rows, cfg, 0).blocks == [];
    var s := EngineAt(rows, cfg, p - 1);
    L.NextRow(rows, cfg, p);
    L.NewbornRow(s, rows, p - 1, cfg);
    hide EngineAt;
    if i < |s.blocks| {
      BackingStep(s, rows, p - 1, cfg, i);
      ConfirmedOnItsRow(rows, cfg, p - 1, i);
    }
  }

  lemma {:induction false} ProvisionalIsUnconfirmed(rows: seq<ObRow>, cfg: Settings, p: nat, i: nat)
    requires p <= |rows| && i < |EngineAt(rows, cfg, p).blocks|
    ensures EngineAt(rows, cfg, p).blocks[i].life.standing == Provisional ==>
              EngineAt(rows, cfg, p).blocks[i].life.confirmedIndex.None?
  {
    hide Process, Survey;
    assert EngineAt(rows, cfg, 0).blocks == [];
    var s := EngineAt(rows, cfg, p - 1);
    L.NextRow(rows, cfg, p);
    L.NewbornRow(s, rows, p - 1, cfg);
    hide EngineAt;
    if i < |s.blocks| {
      ProvisionalIsUnconfirmed(rows, cfg, p - 1, i);
      BackingStep(s, rows, p - 1, cfg, i);
    }
  }

  /** A promoted block is still active after its promotion exactly when no row up to
      then has had a fate for it. */
  lemma {:induction false} PromotedIsActiveIff(rows: seq<ObRow>, cfg: Settings, p: nat, i: nat)
    requires p <= |rows| && i < |EngineAt(rows, cfg, p).blocks|
    ensures
      var b := EngineAt(rows, cfg, p).blocks[i];
      b.life.confirmedIndex.Some? ==>
        var r := b.life.confirmedIndex.value;
        && b.shape.created <= r < p && i < |EngineAt(rows, cfg, r + 1).blocks|
        && (IsActive(EngineAt(rows, cfg, r + 1).blocks[i].life) <==>
              L.FirstFate(b.shape, rows, cfg, b.shape.created + 1, r + 1).None?)
  {
    hide EngineAt, L.FirstFate, IsActive;
    ConfirmedOnItsRow(rows, cfg, p, i);
    var b := EngineAt(rows, cfg, p).blocks[i];
    if b.life.confirmedIndex.Some? {
      var r := b.life.confirmedIndex.value;
      L.ActiveUntilFate(rows, cfg, r + 1, i);
      BlocksPersist(rows, cfg, r + 1, p, i);
    }
  }

  // ----- The candle decides the block -----

  /** A block copies its source candle, an opposing one of an earlier row. */
  predicate DrawnFrom(s: Shape, rows: seq<ObRow>) {
    && s.candle < |rows| && Opposes(rows[s.candle], s.dir)
    && rows[s.candle].high == Some(s.high) && rows[s.candle].low == Some(s.low)
    && rows[s.candle].open == Some(s.open) && rows[s.candle].close == Some(s.close)
    && Oriented(s)
  }

  lemma {:induction false} BornDrawn(rows: seq<ObRow>, position: nat, cfg: Settings, id: nat)
    requires position < |rows|
    ensures
      var born := Born(rows, position, cfg, id);
      born.Some? ==>
        && DrawnFrom(born.value.shape, rows) && born.value.shape.candle < position
        && rows[position].dir == Some(born.value.shape.dir)
        && SourceCandle(rows, position, born.value.shape.dir, cfg.lookback) == Some(born.value.shape.candle)
  {
    hide StrongBody, SweptBetween, Displacement;
  }

  /** Two blocks on one candle have the same direction and the same prices, so the
      candle alone tells footprints apart. */
  lemma {:induction false} CandleDecidesBlock(rows: seq<ObRow>, cfg: Settings, p: nat, i: nat, j: nat)
    requires p <= |rows| && i < |EngineAt(rows, cfg, p).blocks| && j < |EngineAt(rows, cfg, p).blocks|
    ensures
      var s, t := EngineAt(rows, cfg, p).blocks[i].shape, EngineAt(rows, cfg, p).blocks[j].shape;
      s.candle == t.candle ==>
        && s.dir == t.dir && s.high == t.high && s.low == t.low && s.open == t.open && s.close == t.close
        && s.proximal == t.proximal && s.distal == t.distal
  {
    hide EngineAt, Survey, Born;
    BlocksAreBorn(rows, cfg, p, i);
    BlocksAreBorn(rows, cfg, p, j);
    BornDrawn(rows, EngineAt(rows, cfg, p).blocks[i].shape.created, cfg, i + 1);
    BornDrawn(rows, EngineAt(rows, cfg, p).blocks[j].shape.created, cfg, j + 1);
  }

  // ----- One block for an MSS and its CHoCH -----

  /** The block of an MSS is the one promoted when a CHoCH resolves that MSS. */
  lemma {:induction false} ShiftBlockIsPromoted(rows: seq<SwingRow>, minimumBreak: real, ob: seq<ObRow>, cfg: Settings,
                                                i: nat, r: nat, d: Direction)
    requires Follows(ob, rows, minimumBreak) && r < |rows| && i < |EngineAt(ob, cfg, r).blocks|
    requires
      var s := EngineAt(ob, cfg, r).blocks[i].shape;
      s.source.kind == MSS && ConfirmedAt(rows, minimumBreak, s.created, r, d)
    ensures Survey(EngineAt(ob, cfg, r), ob, r, cfg).promoted == Some(i)
    ensures ob[r].event == Some(CHoCH) && ob[r].dir == Some(d)
  {
    hide EngineAt, Survey, Withdrawn, S.OutAt, S.At, E.ShiftAt, E.Unresolved, L.Consistent;
    var s, c := EngineAt(ob, cfg, r), S.At(rows, minimumBreak, r).cycle;
    RunsAreCoupled(rows, minimumBreak, ob, cfg, r);
    SettledBlock(s, c, rows, minimumBreak, r, i);
    E.ShiftStaysPending(rows, minimumBreak, s.blocks[i].shape.created, r, d);
    CarriedRow(ob, rows, minimumBreak, r);
    PromotionFinds(s, c, rows, minimumBreak, ob, r, cfg, i);
  }

  lemma {:induction false} SkipIffSameCandle(s: Engine, rows: seq<ObRow>, position: nat, cfg: Settings, i: nat)
    requires position < |rows| && i < |s.blocks| && Survey(s, rows, position, cfg).promoted == Some(i)
    requires rows[position].dir.Some?
    ensures Survey(s, rows, position, cfg).skip <==>
              SourceCandle(rows, position, rows[position].dir.value, cfg.lookback) == Some(s.blocks[i].shape.candle)
  {
    ShapesStay(s, rows, position, cfg, i);
    hide SourceCandle, Promoted, PricedAll, CascadedAll, AgedAll;
  }

  lemma {:induction false} AddsUnlessSkipped(s: Engine, rows: seq<ObRow>, position: nat, cfg: Settings)
    requires position < |rows|
    ensures |Process(s, rows, position, cfg).blocks| > |s.blocks| <==>
              !Survey(s, rows, position, cfg).skip && Born(rows, position, cfg, |s.blocks| + 1).Some?
  {
    hide Survey, Born;
  }

  /** On the row of that CHoCH a second block is created exactly when the filters let
      one through and it stands on another candle. */
  lemma {:induction false} ChochAddsOnlyNewFootprints(rows: seq<SwingRow>, minimumBreak: real, ob: seq<ObRow>,
                                                      cfg: Settings, i: nat, r: nat, d: Direction)
    requires Follows(ob, rows, minimumBreak) && r < |rows| && i < |EngineAt(ob, cfg, r).blocks|
    requires
      var s := EngineAt(ob, cfg, r).blocks[i].shape;
      s.source.kind == MSS && ConfirmedAt(rows, minimumBreak, s.created, r, d)
    ensures
      var s := EngineAt(ob, cfg, r);
      var born := Born(ob, r, cfg, |s.blocks| + 1);
      |EngineAt(ob, cfg, r + 1).blocks| > |s.blocks| <==>
        born.Some? && born.value.shape.candle != s.blocks[i].shape.candle
  {
    hide EngineAt, Process, Survey, Born, SourceCandle, ConfirmedAt, Follows, DrawnFrom;
    CarriedRow(ob, rows, minimumBreak, r);
    var s := EngineAt(ob, cfg, r);
    ShiftBlockIsPromoted(rows, minimumBreak, ob, cfg, i, r, d);
    SkipIffSameCandle(s, ob, r, cfg, i);
    BornDrawn(ob, r, cfg, |s.blocks| + 1);
    AddsUnlessSkipped(s, ob, r, cfg);
    L.NextRow(ob, cfg, r + 1);
  }

  /** The block of a resolved MSS and a block of the CHoCH that resolved it never
      share a candle. */
  lemma {:induction false} ResolvedShareNoCandle(rows: seq<SwingRow>, minimumBreak: real, ob: seq<ObRow>, cfg: Settings,
                                                 p: nat, i: nat, j: nat, r: nat, d: Direction)
    requires Follows(ob, rows, minimumBreak) && p <= |rows| && r < |rows|
    requires i < |EngineAt(ob, cfg, p).blocks| && j < |EngineAt(ob, cfg, p).blocks|
    requires
      var s, t := EngineAt(ob, cfg, p).blocks[i].shape, EngineAt(ob, cfg, p).blocks[j].shape;
      s.source.kind == MSS && ConfirmedAt(rows, minimumBreak, s.source.row, r, d) && t.source == SourceId(CHoCH, r)
    ensures EngineAt(ob, cfg, p).blocks[i].shape.candle != EngineAt(ob, cfg, p).blocks[j].shape.candle
  {
    hide EngineAt, Survey, Born, SourceCandle, S.OutAt, S.At, E.ShiftAt, E.Unresolved, Placed;
    var s, t := EngineAt(ob, cfg, p).blocks[i].shape, EngineAt(ob, cfg, p).blocks[j].shape;
    RunsAreCoupled(rows, minimumBreak, ob, cfg, p);
    SettledBlock(EngineAt(ob, cfg, p), S.At(rows, minimumBreak, p).cycle, rows, minimumBreak, p, i);
    SettledBlock(EngineAt(ob, cfg, p), S.At(rows, minimumBreak, p).cycle, rows, minimumBreak, p, j);
    BlocksAreBorn(ob, cfg, p, i);
    BlocksAreBorn(ob, cfg, p, j);
    BlocksPersist(ob, cfg, s.created + 1, r, i);
    ShiftBlockIsPromoted(rows, minimumBreak, ob, cfg, i, r, d);
    SkipIffSameCandle(EngineAt(ob, cfg, r), ob, r, cfg, i);
    BornDrawn(ob, r, cfg, j + 1);
  }
}
