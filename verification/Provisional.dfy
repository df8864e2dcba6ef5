/** The two engines together: what happens to the blocks of an MSS once the
    structure engine resolves it. */
module Provisional {
  import opened Domain
  import S = Structure
  import E = StructureEvents
  import opened OrderBlocks
  import L = OrderBlockLife

  type SwingRow = S.SwingRow

  /** The Order Block engine reads the columns the structure engine wrote. */
  predicate Follows(ob: seq<ObRow>, rows: seq<SwingRow>, minimumBreak: real) {
    && |ob| == |rows|
    && forall p :: 0 <= p < |rows| ==> Carries(ob[p], S.OutAt(rows, minimumBreak, p))
  }

  predicate Carries(row: ObRow, o: S.OutRow) {
    && row.event == o.event && row.dir == o.direction
    && row.invalidatedOrigin == o.invalidatedOrigin && row.brokenLevel == o.brokenLevel
  }

  // ----- Where a block stands -----

  predicate PendingOn(c: S.Cycle, m: nat) { c.Challenged? && c.origin == m }

  /** The MSS at `m` was invalidated at `r`. */
  predicate InvalidatedAt(rows: seq<SwingRow>, minimumBreak: real, m: nat, r: nat)
    requires r < |rows|
  {
    m < r && S.OutAt(rows, minimumBreak, r).event == Some(MSSInvalidated)
    && S.OutAt(rows, minimumBreak, r).invalidatedOrigin == Some(m)
  }

  /** The MSS at `m` was confirmed by the CHoCH at `r`. */
  predicate ConfirmedAt(rows: seq<SwingRow>, minimumBreak: real, m: nat, r: nat, d: Direction)
    requires r < |rows|
  {
    && m < r && S.OutAt(rows, minimumBreak, r).event == Some(CHoCH)
    && S.OutAt(rows, minimumBreak, r).direction == Some(d)
    && E.ShiftAt(rows, minimumBreak, m, d) && E.Unresolved(rows, minimumBreak, m, r, d)
  }

  predicate Withdrawn(rows: seq<SwingRow>, minimumBreak: real, m: nat, p: nat)
    requires p <= |rows|
  {
    exists r :: 0 <= r < p && InvalidatedAt(rows, minimumBreak, m, r)
  }

  /** Waiting for its MSS, withdrawn with it, or confirmed by its CHoCH. */
  datatype Fortune = Waiting | Dropped | Carried

  function FortuneOf(b: Block, c: S.Cycle): Fortune {
    if b.life.standing == Confirmed then Carried
    else if PendingOn(c, b.shape.created) then Waiting else Dropped
  }

  /** An MSS block is in exactly one of three positions. */
  predicate Placed(b: Block, c: S.Cycle, rows: seq<SwingRow>, minimumBreak: real, p: nat)
    requires b.shape.created < p <= |rows|
  {
    && E.ShiftAt(rows, minimumBreak, b.shape.created, b.shape.dir)
    && match FortuneOf(b, c)
       case Waiting => b.life.confirmedIndex.None? && b.life.reason != Some(MssInvalidation)
       case Dropped =>
         b.life.confirmedIndex.None? && b.life.status != ActiveBlock
         && Withdrawn(rows, minimumBreak, b.shape.created, p)
       case Carried =>
         && b.life.confirmedIndex.Some? && b.life.confirmedIndex.value < p
         && ConfirmedAt(rows, minimumBreak, b.shape.created, b.life.confirmedIndex.value, b.shape.dir)
         && !PendingOn(c, b.shape.created)
         && b.life.reason != Some(MssInvalidation)
  }

  predicate Settled(b: Block, c: S.Cycle, rows: seq<SwingRow>, minimumBreak: real, p: nat)
    requires p <= |rows|
  {
    && b.shape.created < p && b.shape.source.row == b.shape.created && L.Consistent(b.life)
    && if b.shape.source.kind == MSS then Placed(b, c, rows, minimumBreak, p)
       else b.life.standing == Confirmed && b.life.confirmedIndex.None? && b.life.reason != Some(MssInvalidation)
            && S.OutAt(rows, minimumBreak, b.shape.created).event == Some(b.shape.source.kind)
            && S.OutAt(rows, minimumBreak, b.shape.created).direction == Some(b.shape.dir)
  }

  /** The engine remembers the pending MSS exactly when it has a block. */
  predicate Remembers(s: Engine, c: S.Cycle) {
    && (s.pending.Some? ==> PendingOn(c, s.pending.value))
    && forall i :: 0 <= i < |s.blocks| && PendingOn(c, s.blocks[i].shape.created)
                   && s.blocks[i].shape.source.kind == MSS ==>
         s.pending == Some(s.blocks[i].shape.created)
  }

  predicate Ordered(s: Engine) {
    forall i, j :: 0 <= i < j < |s.blocks| ==> s.blocks[i].shape.created < s.blocks[j].shape.created
  }

  predicate Coupled(s: Engine, c: S.Cycle, rows: seq<SwingRow>, minimumBreak: real, p: nat)
    requires p <= |rows|
  {
    && (forall i :: 0 <= i < |s.blocks| ==> Settled(s.blocks[i], c, rows, minimumBreak, p))
    && Remembers(s, c) && Ordered(s)
  }

  // ----- One row of the structure engine -----

  lemma {:induction false} CycleRow(rows: seq<SwingRow>, minimumBreak: real, p: nat)
    requires p < |rows|
    ensures
      var c, next, o := S.At(rows, minimumBreak, p).cycle, S.At(rows, minimumBreak, p + 1).cycle,
                       S.OutAt(rows, minimumBreak, p);
      && (c.Challenged? && o.event == Some(MSSInvalidated) ==>
            !next.Challenged? && InvalidatedAt(rows, minimumBreak, c.origin, p))
      && (c.Challenged? && o.event == Some(CHoCH) ==>
            && !next.Challenged? && c.origin < p && E.ShiftAt(rows, minimumBreak, c.origin, Opposite(c.dir))
            && ConfirmedAt(rows, minimumBreak, c.origin, p, Opposite(c.dir)))
      && (c.Challenged? && o.event !in {Some(MSSInvalidated), Some(CHoCH)} ==>
            o.event.None? && next.Challenged? && next.origin == c.origin)
      && (!c.Challenged? ==> o.event in {None, Some(BOS), Some(MSS)})
      && (!c.Challenged? && o.event != Some(MSS) ==> !next.Challenged?)
      && (o.event == Some(MSS) ==>
            && PendingOn(next, p) && o.direction.Some? && E.ShiftAt(rows, minimumBreak, p, o.direction.value))
  {
    var s, row := S.At(rows, minimumBreak, p), rows[p];
    E.OneRow(s, row, minimumBreak, p);
    if s.cycle.Challenged? {
      E.ChallengedRow(s, row, minimumBreak, p);
      E.ChallengeHasOrigin(rows, minimumBreak, p);
    } else {
      E.ShiftOrigin(s, row, minimumBreak, p);
    }
  }

  // ----- One row of the block engine -----

  /** The part of a row's effect on a block that matters here. */
  lemma {:induction false} BlockRow(s: Engine, ob: seq<ObRow>, p: nat, cfg: Settings, i: nat)
    requires p < |ob| && i < |s.blocks| && L.Consistent(s.blocks[i].life) && s.blocks[i].shape.created < p
    ensures
      var b, after := s.blocks[i], Survey(s, ob, p, cfg).aged[i];
      && after.shape == b.shape && L.Consistent(after.life)
      && (b.life.status != ActiveBlock ==> after.life.status == b.life.status && after.life.reason == b.life.reason)
      && (Cascades(b.shape, ob[p]) ==> after.life.status != ActiveBlock)
      && (after.life.reason == Some(MssInvalidation) ==>
          b.life.reason == Some(MssInvalidation) || Cascades(b.shape, ob[p]))
      && (if Survey(s, ob, p, cfg).promoted == Some(i)
          then after.life.standing == Confirmed && after.life.confirmedIndex == Some(p)
          else after.life.standing == b.life.standing && after.life.confirmedIndex == b.life.confirmedIndex)
  {
    L.BlockStep(s, ob, p, cfg, i);
    var b, after := s.blocks[i], Survey(s, ob, p, cfg).aged[i];
    hide Survey;
    assert L.Bare(after.life).status == after.life.status && L.Bare(after.life).reason == after.life.reason;
    assert L.Bare(b.life).status == b.life.status && L.Bare(b.life).reason == b.life.reason;
  }

  lemma {:induction false} CascadedKeeps(s: Engine, ob: seq<ObRow>, p: nat, cfg: Settings, k: nat)
    requires p < |ob| && k < |s.blocks|
    ensures
      var b, after := s.blocks[k], Survey(s, ob, p, cfg).cascaded[k];
      after.shape == b.shape && after.life.standing == b.life.standing
  {
  }

  lemma {:induction false} SearchedFor(s: Engine, ob: seq<ObRow>, p: nat, cfg: Settings)
    requires p < |ob|
    ensures
      var stage := Survey(s, ob, p, cfg);
      stage.promoted == if ob[p].event == Some(CHoCH) && s.pending.Some?
                        then FindProvisional(stage.cascaded, s.pending.value, 0) else None
  {
    hide PricedAll, CascadedAll, AgedAll, SourceCandle, FindProvisional;
  }

  /** Promotion finds the one block of the pending MSS, and only that. */
  lemma {:induction false} PromotionFinds(s: Engine, c: S.Cycle, rows: seq<SwingRow>, minimumBreak: real,
                                          ob: seq<ObRow>, p: nat, cfg: Settings, i: nat)
    requires p < |rows| == |ob| && i < |s.blocks| && Coupled(s, c, rows, minimumBreak, p)
    ensures
      var b := s.blocks[i];
      Survey(s, ob, p, cfg).promoted == Some(i) <==>
        && ob[p].event == Some(CHoCH)
        && b.shape.source.kind == MSS && b.life.standing == Provisional && PendingOn(c, b.shape.created)
  {
    hide Survey, FindProvisional, E.ShiftAt, Withdrawn, ConfirmedAt, L.Consistent, S.OutAt;
    var stage := Survey(s, ob, p, cfg);
    SearchedFor(s, ob, p, cfg);
    forall k | 0 <= k < |s.blocks|
      ensures stage.cascaded[k].shape == s.blocks[k].shape && s.blocks[k].shape.source.row == s.blocks[k].shape.created
      ensures stage.cascaded[k].life.standing == s.blocks[k].life.standing
    {
      CascadedKeeps(s, ob, p, cfg, k);
      assert Settled(s.blocks[k], c, rows, minimumBreak, p);
    }
  }

  lemma {:induction false} WithdrawnStays(rows: seq<SwingRow>, minimumBreak: real, m: nat, p: nat)
    requires p < |rows|
    ensures Withdrawn(rows, minimumBreak, m, p) || InvalidatedAt(rows, minimumBreak, m, p) ==>
            Withdrawn(rows, minimumBreak, m, p + 1)
  {
    hide InvalidatedAt;
  }

  lemma {:induction false} SettledBlock(s: Engine, c: S.Cycle, rows: seq<SwingRow>, minimumBreak: real, p: nat, i: nat)
    requires p <= |rows| && Coupled(s, c, rows, minimumBreak, p) && i < |s.blocks|
    ensures Settled(s.blocks[i], c, rows, minimumBreak, p)
  {
  }

  lemma {:induction false} OneDirection(rows: seq<SwingRow>, minimumBreak: real, m: nat, d: Direction, e: Direction)
    requires m < |rows| && E.ShiftAt(rows, minimumBreak, m, d) && E.ShiftAt(rows, minimumBreak, m, e)
    ensures d == e
  {
  }

  lemma {:induction false} CarriedRow(ob: seq<ObRow>, rows: seq<SwingRow>, minimumBreak: real, p: nat)
    requires p < |rows| && Follows(ob, rows, minimumBreak)
    ensures |ob| == |rows| && Carries(ob[p], S.OutAt(rows, minimumBreak, p))
  {
  }

  /** A block already there stays settled. */
  lemma {:induction false} StaysSettled(s: Engine, rows: seq<SwingRow>, minimumBreak: real, ob: seq<ObRow>, p: nat,
                                        cfg: Settings, i: nat)
    requires p < |rows| && Follows(ob, rows, minimumBreak) && i < |s.blocks|
    requires Coupled(s, S.At(rows, minimumBreak, p).cycle, rows, minimumBreak, p)
    ensures Settled(Survey(s, ob, p, cfg).aged[i], S.At(rows, minimumBreak, p + 1).cycle, rows, minimumBreak, p + 1)
  {
    hide Survey, Coupled, Follows, Withdrawn, S.OutAt, S.At, E.ShiftAt, E.Unresolved, L.Consistent;
    var c, b := S.At(rows, minimumBreak, p).cycle, s.blocks[i];
    CarriedRow(ob, rows, minimumBreak, p);
    SettledBlock(s, c, rows, minimumBreak, p, i);
    CycleRow(rows, minimumBreak, p);
    BlockRow(s, ob, p, cfg, i);
    PromotionFinds(s, c, rows, minimumBreak, ob, p, cfg, i);
    WithdrawnStays(rows, minimumBreak, b.shape.created, p);
    if b.shape.source.kind == MSS && PendingOn(c, b.shape.created) && ob[p].event == Some(CHoCH) {
      OneDirection(rows, minimumBreak, c.origin, b.shape.dir, Opposite(c.dir));
    }
  }

  /** A block born on row `p` is settled: an MSS block waits for its MSS. */
  lemma {:induction false} BornSettled(s: Engine, rows: seq<SwingRow>, minimumBreak: real, ob: seq<ObRow>, p: nat,
                                       cfg: Settings)
    requires p < |rows| && Follows(ob, rows, minimumBreak) && |Process(s, ob, p, cfg).blocks| > |s.blocks|
    ensures Settled(Process(s, ob, p, cfg).blocks[|s.blocks|], S.At(rows, minimumBreak, p + 1).cycle, rows,
                    minimumBreak, p + 1)
  {
    assert Carries(ob[p], S.OutAt(rows, minimumBreak, p));
    CycleRow(rows, minimumBreak, p);
    L.NewbornRow(s, ob, p, cfg);
    hide Process, S.OutAt, S.At;
  }

  /** After the row the engine again remembers exactly the pending MSS. */
  lemma {:induction false} StaysRemembered(s: Engine, rows: seq<SwingRow>, minimumBreak: real, ob: seq<ObRow>,
                                        p: nat, cfg: Settings)
    requires p < |rows| && Follows(ob, rows, minimumBreak)
    requires Coupled(s, S.At(rows, minimumBreak, p).cycle, rows, minimumBreak, p)
    ensures Remembers(Process(s, ob, p, cfg), S.At(rows, minimumBreak, p + 1).cycle)
    ensures Ordered(Process(s, ob, p, cfg))
  {
    var stage, after := Survey(s, ob, p, cfg), Process(s, ob, p, cfg);
    assert Carries(ob[p], S.OutAt(rows, minimumBreak, p));
    CycleRow(rows, minimumBreak, p);
    L.NewbornRow(s, ob, p, cfg);
    assert stage.pending == if ob[p].event in {Some(CHoCH), Some(MSSInvalidated)} then None else s.pending;
    forall i | 0 <= i < |s.blocks| ensures after.blocks[i].shape == s.blocks[i].shape && s.blocks[i].shape.created < p {
      ShapesStay(s, ob, p, cfg, i);
      assert Settled(s.blocks[i], S.At(rows, minimumBreak, p).cycle, rows, minimumBreak, p);
    }
    hide Survey, Process, S.OutAt, S.At, Settled;
  }

  lemma {:induction false} CoupledOneMore(s: Engine, rows: seq<SwingRow>, minimumBreak: real, ob: seq<ObRow>, p: nat,
                                        cfg: Settings)
    requires p < |rows| && Follows(ob, rows, minimumBreak)
    requires Coupled(s, S.At(rows, minimumBreak, p).cycle, rows, minimumBreak, p)
    ensures Coupled(Process(s, ob, p, cfg), S.At(rows, minimumBreak, p + 1).cycle, rows, minimumBreak, p + 1)
  {
    var after, next := Process(s, ob, p, cfg), S.At(rows, minimumBreak, p + 1).cycle;
    StaysRemembered(s, rows, minimumBreak, ob, p, cfg);
    L.NewbornRow(s, ob, p, cfg);
    forall i | 0 <= i < |after.blocks| ensures Settled(after.blocks[i], next, rows, minimumBreak, p + 1) {
      hide *;
      if i < |s.blocks| {
        StaysSettled(s, rows, minimumBreak, ob, p, cfg, i);
      } else {
        BornSettled(s, rows, minimumBreak, ob, p, cfg);
      }
    }
    hide Process, Survey, S.At, Settled, Remembers, Ordered;
  }

  lemma {:induction false} CoupledAtStart(rows: seq<SwingRow>, minimumBreak: real)
    ensures Coupled(Engine([], None), S.START.cycle, rows, minimumBreak, 0)
  {
  }

  lemma {:induction false} RunsAreCoupled(rows: seq<SwingRow>, minimumBreak: real, ob: seq<ObRow>, cfg: Settings,
                                        p: nat)
    requires p <= |rows| && Follows(ob, rows, minimumBreak)
    ensures Coupled(EngineAt(ob, cfg, p), S.At(rows, minimumBreak, p).cycle, rows, minimumBreak, p)
  {
    hide Process, Coupled, S.Advanced;
    if p == 0 {
      CoupledAtStart(rows, minimumBreak);
    } else {
      RunsAreCoupled(rows, minimumBreak, ob, cfg, p - 1);
      CoupledOneMore(EngineAt(ob, cfg, p - 1), rows, minimumBreak, ob, p - 1, cfg);
    }
  }

  // ----- What the coupling gives -----

  /** After any row, an active provisional block belongs to the pending MSS, and
      its origin is the pending origin the structure engine wrote. */
  lemma {:induction false} ActiveProvisionalIsPending(rows: seq<SwingRow>, minimumBreak: real, ob: seq<ObRow>,
                                        cfg: Settings, p: nat, i: nat)
    requires p < |rows| && Follows(ob, rows, minimumBreak) && i < |EngineAt(ob, cfg, p + 1).blocks|
    ensures
      var b := EngineAt(ob, cfg, p + 1).blocks[i];
      b.life.standing == Provisional && IsActive(b.life) ==>
        S.OutAt(rows, minimumBreak, p).originIndex == Some(b.shape.created)
  {
    RunsAreCoupled(rows, minimumBreak, ob, cfg, p + 1);
    var c := S.At(rows, minimumBreak, p + 1).cycle;
    assert Settled(EngineAt(ob, cfg, p + 1).blocks[i], c, rows, minimumBreak, p + 1);
    assert S.MoveAt(rows, minimumBreak, p).next.cycle == c;
    hide EngineAt;
  }

  /** A provisional block whose MSS is no longer pending was dropped with it: its
      MSS was invalidated and the block is not active. */
  lemma {:induction false} ResolvedProvisionalIsDropped(rows: seq<SwingRow>, minimumBreak: real, ob: seq<ObRow>,
                                        cfg: Settings, p: nat, i: nat)
    requires p <= |rows| && Follows(ob, rows, minimumBreak) && i < |EngineAt(ob, cfg, p).blocks|
    ensures
      var b := EngineAt(ob, cfg, p).blocks[i];
      b.life.standing == Provisional && !PendingOn(S.At(rows, minimumBreak, p).cycle, b.shape.created) ==>
        !IsActive(b.life) && Withdrawn(rows, minimumBreak, b.shape.created, p)
  {
    RunsAreCoupled(rows, minimumBreak, ob, cfg, p);
    assert Settled(EngineAt(ob, cfg, p).blocks[i], S.At(rows, minimumBreak, p).cycle, rows, minimumBreak, p);
    hide EngineAt, S.At;
  }

  /** A promoted block comes from an MSS of its own direction and was promoted by
      the CHoCH that resolved that MSS, which never also cascaded it. */
  lemma {:induction false} PromotionMatchesChoch(rows: seq<SwingRow>, minimumBreak: real, ob: seq<ObRow>,
                                        cfg: Settings, p: nat, i: nat)
    requires p <= |rows| && Follows(ob, rows, minimumBreak) && i < |EngineAt(ob, cfg, p).blocks|
    ensures
      var b := EngineAt(ob, cfg, p).blocks[i];
      b.life.confirmedIndex.Some? ==>
        && b.shape.source == SourceId(MSS, b.shape.created) && b.shape.created < b.life.confirmedIndex.value < p
        && ConfirmedAt(rows, minimumBreak, b.shape.created, b.life.confirmedIndex.value, b.shape.dir)
        && b.life.reason != Some(MssInvalidation)
  {
    RunsAreCoupled(rows, minimumBreak, ob, cfg, p);
    assert Settled(EngineAt(ob, cfg, p).blocks[i], S.At(rows, minimumBreak, p).cycle, rows, minimumBreak, p);
    hide EngineAt, S.At;
  }

  /** When an MSS resolves into a CHoCH, its block is promoted on that row. */
  lemma {:induction false} ChochPromotes(rows: seq<SwingRow>, minimumBreak: real, ob: seq<ObRow>, cfg: Settings,
                                        p: nat, i: nat)
    requires p <= |rows| && Follows(ob, rows, minimumBreak) && i < |EngineAt(ob, cfg, p).blocks|
    ensures
      var b := EngineAt(ob, cfg, p).blocks[i];
      b.shape.source.kind == MSS && !PendingOn(S.At(rows, minimumBreak, p).cycle, b.shape.created)
      && !Withdrawn(rows, minimumBreak, b.shape.created, p) ==>
        b.life.standing == Confirmed && b.life.confirmedIndex.Some?
  {
    RunsAreCoupled(rows, minimumBreak, ob, cfg, p);
    assert Settled(EngineAt(ob, cfg, p).blocks[i], S.At(rows, minimumBreak, p).cycle, rows, minimumBreak, p);
    hide EngineAt, S.At;
  }
}
