/** Each pool ends at the first later row that sweeps it, breaks it or finds it too
    old, and the active counts balance at every row. */
module LiquidityLife {
  import opened Domain
  import opened Liquidity

  datatype Fate = Sweeping | Breaking | Ageing

  /** In order of priority: sweep, break, age. */
  function FateOn(s: PoolShape, row: LiqRow, index: nat, cfg: LiqSettings): Option<Fate> {
    if index <= s.created then None
    else if HasPrices(row) && SweptBy(s, row, cfg) then Some(Sweeping)
    else if HasPrices(row) && BrokenBy(s, row, cfg) then Some(Breaking)
    else if cfg.maxAge.Some? && index - s.created >= cfg.maxAge.value then Some(Ageing)
    else None
  }

  /** The first two never compete: a sweep closes back inside, a break does not. */
  lemma {:induction false} SweepAndBreakExclude(s: PoolShape, row: LiqRow, cfg: LiqSettings)
    requires ValidSettings(cfg) && HasPrices(row)
    ensures !(SweptBy(s, row, cfg) && BrokenBy(s, row, cfg))
  {
    assert Scaled(cfg.breakPips, cfg.pip) >= 0.0;
  }

  function Meet(p: Pool, row: LiqRow, index: nat, fate: Fate, cfg: LiqSettings): Pool
    requires fate != Ageing ==> HasPrices(row)
  {
    match fate
    case Sweeping => Sweep(p, row, index, cfg)
    case Breaking => BreakThrough(p, row, index, cfg)
    case Ageing => MarkExpired(p, index)
  }

  function FirstFate(s: PoolShape, rows: seq<LiqRow>, cfg: LiqSettings, from: nat, end: nat): (first: Option<nat>)
    requires from <= end <= |rows|
    ensures first.Some? ==> from <= first.value < end && FateOn(s, rows[first.value], first.value, cfg).Some?
    ensures forall i :: from <= i < (if first.Some? then first.value else end) ==> FateOn(s, rows[i], i, cfg).None?
    decreases end - from
  {
    if from == end then None
    else if FateOn(s, rows[from], from, cfg).Some? then Some(from)
    else FirstFate(s, rows, cfg, from + 1, end)
  }

  /** The pool the declarative reading gives after `n` rows. */
  function Fated(s: PoolShape, rows: seq<LiqRow>, cfg: LiqSettings, n: nat): Pool
    requires s.created < n <= |rows|
  {
    var first := FirstFate(s, rows, cfg, s.created + 1, n);
    if first.None? then Pool(s, NEWBORN)
    else
      var row := rows[first.value];
      Meet(Pool(s, NEWBORN), row, first.value, FateOn(s, row, first.value, cfg).value, cfg)
  }

  // ----- One row -----

  function Evolved(p: Pool, row: LiqRow, index: nat, cfg: LiqSettings): Pool {
    Aged(Checked(p, row, index, cfg), index, cfg.maxAge)
  }

  lemma {:induction false} EvolvedByFate(p: Pool, row: LiqRow, index: nat, cfg: LiqSettings)
    requires p.shape.created < index
    ensures
      var fate := FateOn(p.shape, row, index, cfg);
      Evolved(p, row, index, cfg) == if !IsActive(p.life) || fate.None? then p else Meet(p, row, index, fate.value, cfg)
  {
  }

  lemma {:induction false} PoolStep(s: Engine, row: LiqRow, index: nat, cfg: LiqSettings, i: nat)
    requires i < |s.pools|
    ensures
      var after := Process(s, row, index, cfg).pools;
      i < |after| && after[i] == Evolved(s.pools[i], row, index, cfg)
  {
  }

  lemma {:induction false} NewbornRow(s: Engine, row: LiqRow, index: nat, cfg: LiqSettings)
    ensures
      var after := Process(s, row, index, cfg).pools;
      && |s.pools| <= |after| <= |s.pools| + 1
      && (|after| > |s.pools| ==> after[|s.pools|].shape.created == index && after[|s.pools|].life == NEWBORN)
  {
  }

  // ----- Whole runs -----

  lemma {:induction false} FirstFateExtends(s: PoolShape, rows: seq<LiqRow>, cfg: LiqSettings, from: nat, end: nat)
    requires from <= end < |rows|
    ensures
      var before := FirstFate(s, rows, cfg, from, end);
      FirstFate(s, rows, cfg, from, end + 1)
      == if before.Some? then before else if FateOn(s, rows[end], end, cfg).Some? then Some(end) else None
    decreases end - from
  {
    hide FateOn;
    if from < end && FateOn(s, rows[from], from, cfg).None? {
      FirstFateExtends(s, rows, cfg, from + 1, end);
    }
  }

  lemma {:induction false} FatedStep(s: PoolShape, rows: seq<LiqRow>, cfg: LiqSettings, n: nat)
    requires s.created < n < |rows|
    ensures Evolved(Fated(s, rows, cfg, n), rows[n], n, cfg) == Fated(s, rows, cfg, n + 1)
  {
    FirstFateExtends(s, rows, cfg, s.created + 1, n);
    EvolvedByFate(Fated(s, rows, cfg, n), rows[n], n, cfg);
    hide FateOn, Evolved;
  }

  predicate LivesAsFated(p: Pool, rows: seq<LiqRow>, cfg: LiqSettings, n: nat)
    requires n <= |rows|
  {
    p.shape.created < n && p == Fated(p.shape, rows, cfg, n)
  }

  lemma {:induction false} SurvivesRow(s: Engine, rows: seq<LiqRow>, index: nat, cfg: LiqSettings, i: nat)
    requires index < |rows| && i < |s.pools| && LivesAsFated(s.pools[i], rows, cfg, index)
    ensures
      var after := Process(s, rows[index], index, cfg).pools;
      i < |after| && LivesAsFated(after[i], rows, cfg, index + 1)
  {
    PoolStep(s, rows[index], index, cfg, i);
    FatedStep(s.pools[i].shape, rows, cfg, index);
    hide Process, Evolved, FirstFate;
  }

  lemma {:induction false} NewbornLives(p: Pool, rows: seq<LiqRow>, cfg: LiqSettings, index: nat)
    requires index < |rows| && p.shape.created == index && p.life == NEWBORN
    ensures LivesAsFated(p, rows, cfg, index + 1)
  {
  }

  /** Every pool of every run is what its first fate makes of it. */
  lemma {:induction false} PoolsAreFated(rows: seq<LiqRow>, cfg: LiqSettings, n: nat, i: nat)
    requires n <= |rows| && i < |EngineAt(rows, cfg, n).pools|
    ensures LivesAsFated(EngineAt(rows, cfg, n).pools[i], rows, cfg, n)
  {
    hide Process, LivesAsFated;
    assert EngineAt(rows, cfg, 0).pools == [];
    var s := EngineAt(rows, cfg, n - 1);
    assert EngineAt(rows, cfg, n) == Process(s, rows[n - 1], n - 1, cfg);
    NewbornRow(s, rows[n - 1], n - 1, cfg);
    if i < |s.pools| {
      PoolsAreFated(rows, cfg, n - 1, i);
      SurvivesRow(s, rows, n - 1, cfg, i);
    } else {
      NewbornLives(EngineAt(rows, cfg, n).pools[i], rows, cfg, n - 1);
    }
  }

  /** With an age limit no pool outlives it. */
  lemma {:induction false} PoolsDoNotOutliveAge(rows: seq<LiqRow>, cfg: LiqSettings, n: nat, i: nat)
    requires n <= |rows| && i < |EngineAt(rows, cfg, n).pools| && cfg.maxAge.Some?
    ensures
      var p := EngineAt(rows, cfg, n).pools[i];
      IsActive(p.life) ==> n - 1 - p.shape.created < cfg.maxAge.value || n == p.shape.created + 1
  {
    PoolsAreFated(rows, cfg, n, i);
    var s := EngineAt(rows, cfg, n).pools[i].shape;
    if n > s.created + 1 && FirstFate(s, rows, cfg, s.created + 1, n).None? {
      assert FateOn(s, rows[n - 1], n - 1, cfg).None?;
    }
    hide EngineAt;
  }

  // ----- Conservation -----

  predicate CreatedBy(p: Pool, row: nat) { p.shape.created <= row }

  predicate SweptUpTo(p: Pool, row: nat) { p.life.sweptIndex.Some? && p.life.sweptIndex.value <= row }

  predicate BrokenUpTo(p: Pool, row: nat) { p.life.brokenIndex.Some? && p.life.brokenIndex.value <= row }

  predicate ExpiredUpTo(p: Pool, row: nat) { p.life.expiredIndex.Some? && p.life.expiredIndex.value <= row }

  /** How many of the first `k` pools of a side satisfy a test. */
  function Count(pools: seq<Pool>, side: Side, test: Pool -> bool, k: nat): nat
    requires k <= |pools|
  {
    if k == 0 then 0
    else Count(pools, side, test, k - 1) + if pools[k - 1].shape.side == side && test(pools[k - 1]) then 1 else 0
  }

  /** Created minus swept minus broken minus expired up to a row, read off a list of
      pools as they ended. */
  function Balance(pools: seq<Pool>, side: Side, row: nat): int {
    var n := |pools|;
    Count(pools, side, p => CreatedBy(p, row), n) - Count(pools, side, p => SweptUpTo(p, row), n)
    - Count(pools, side, p => BrokenUpTo(p, row), n) - Count(pools, side, p => ExpiredUpTo(p, row), n)
  }

  function Share(p: Pool, row: nat): int {
    (if CreatedBy(p, row) then 1 else 0) - (if SweptUpTo(p, row) then 1 else 0)
    - (if BrokenUpTo(p, row) then 1 else 0) - (if ExpiredUpTo(p, row) then 1 else 0)
  }

  function Shares(pools: seq<Pool>, side: Side, row: nat, k: nat): int
    requires k <= |pools|
  {
    if k == 0 then 0
    else Shares(pools, side, row, k - 1) + if pools[k - 1].shape.side == side then Share(pools[k - 1], row) else 0
  }

  lemma {:induction false} BalanceIsShares(pools: seq<Pool>, side: Side, row: nat, k: nat)
    requires k <= |pools|
    ensures
      Count(pools, side, p => CreatedBy(p, row), k) - Count(pools, side, p => SweptUpTo(p, row), k)
      - Count(pools, side, p => BrokenUpTo(p, row), k) - Count(pools, side, p => ExpiredUpTo(p, row), k)
      == Shares(pools, side, row, k)
  {
    if k > 0 {
      BalanceIsShares(pools, side, row, k - 1);
      hide CreatedBy, SweptUpTo, BrokenUpTo, ExpiredUpTo;
    }
  }

  lemma {:induction false} FirstFatePrefix(s: PoolShape, rows: seq<LiqRow>, cfg: LiqSettings, from: nat, mid: nat,
                                        end: nat)
    requires from <= mid <= end <= |rows|
    ensures
      var all := FirstFate(s, rows, cfg, from, end);
      FirstFate(s, rows, cfg, from, mid) == if all.Some? && all.value < mid then all else None
    decreases mid - from
  {
    hide FateOn;
    if from < mid && FateOn(s, rows[from], from, cfg).None? {
      FirstFatePrefix(s, rows, cfg, from + 1, mid, end);
    }
  }

  lemma {:induction false} MetShare(s: PoolShape, row: LiqRow, index: nat, fate: Fate, cfg: LiqSettings, upTo: nat)
    requires s.created <= upTo && (fate != Ageing ==> HasPrices(row))
    ensures
      var met := Meet(Pool(s, NEWBORN), row, index, fate, cfg);
      Share(met, upTo) == (if index <= upTo then 0 else 1) && !IsActive(met.life)
  {
  }

  lemma {:induction false} UnmetShare(s: PoolShape, upTo: nat)
    requires s.created <= upTo
    ensures Share(Pool(s, NEWBORN), upTo) == 1 && IsActive(NEWBORN)
  {
  }

  /** What a pool contributes at a row it had reached is whether it was active. */
  lemma {:induction false} ShareIsActivity(s: PoolShape, rows: seq<LiqRow>, cfg: LiqSettings, row: nat, n: nat)
    requires s.created <= row < n <= |rows|
    ensures Share(Fated(s, rows, cfg, n), row) == if IsActive(Fated(s, rows, cfg, row + 1).life) then 1 else 0
  {
    hide Meet, Share, IsActive, FirstFate, SweptBy, BrokenBy;
    FirstFatePrefix(s, rows, cfg, s.created + 1, row + 1, n);
    UnmetShare(s, row);
    var first := FirstFate(s, rows, cfg, s.created + 1, n);
    if first.Some? {
      var fate := FateOn(s, rows[first.value], first.value, cfg).value;
      MetShare(s, rows[first.value], first.value, fate, cfg, row);
    }
  }

  lemma {:induction false} ShapesInRow(s: Engine, row: LiqRow, index: nat, cfg: LiqSettings, i: nat)
    ensures
      var after := Process(s, row, index, cfg).pools;
      && |s.pools| <= |after| <= |s.pools| + 1
      && (i < |s.pools| ==> after[i].shape == s.pools[i].shape)
      && (|s.pools| <= i < |after| ==> after[i].shape.created == index)
  {
    hide Process;
    NewbornRow(s, row, index, cfg);
    if i < |s.pools| {
      PoolStep(s, row, index, cfg, i);
    }
  }

  /** Pools only ever get added, and keep what they are. */
  lemma {:induction false} ShapesPersist(rows: seq<LiqRow>, cfg: LiqSettings, m: nat, n: nat, i: nat)
    requires m <= n <= |rows|
    ensures |EngineAt(rows, cfg, m).pools| <= |EngineAt(rows, cfg, n).pools|
    ensures i < |EngineAt(rows, cfg, m).pools| ==>
              EngineAt(rows, cfg, n).pools[i].shape == EngineAt(rows, cfg, m).pools[i].shape
    ensures |EngineAt(rows, cfg, m).pools| <= i < |EngineAt(rows, cfg, n).pools| ==>
              EngineAt(rows, cfg, n).pools[i].shape.created >= m
    decreases n - m
  {
    hide Process;
    if m < n {
      ShapesPersist(rows, cfg, m, n - 1, i);
      ShapesInRow(EngineAt(rows, cfg, n - 1), rows[n - 1], n - 1, cfg, i);
    }
  }

  /** A list of pools as they stood after row `row`, continued to the end of the run. */
  predicate Continues(now: seq<Pool>, final: seq<Pool>, rows: seq<LiqRow>, cfg: LiqSettings, row: nat)
    requires row < |rows|
  {
    && |now| <= |final|
    && (forall i :: 0 <= i < |final| ==> LivesAsFated(final[i], rows, cfg, |rows|))
    && (forall i :: 0 <= i < |now| ==> LivesAsFated(now[i], rows, cfg, row + 1) && final[i].shape == now[i].shape)
    && forall i :: |now| <= i < |final| ==> final[i].shape.created > row
  }

  lemma {:induction false} RunContinues(rows: seq<LiqRow>, cfg: LiqSettings, row: nat)
    requires row < |rows|
    ensures Continues(EngineAt(rows, cfg, row + 1).pools, EngineAt(rows, cfg, |rows|).pools, rows, cfg, row)
  {
    var now, final := EngineAt(rows, cfg, row + 1).pools, EngineAt(rows, cfg, |rows|).pools;
    hide EngineAt, LivesAsFated;
    ShapesPersist(rows, cfg, row + 1, |rows|, 0);
    forall i | 0 <= i < |final| ensures LivesAsFated(final[i], rows, cfg, |rows|)
      && if i < |now| then final[i].shape == now[i].shape else final[i].shape.created > row
    {
      ShapesPersist(rows, cfg, row + 1, |rows|, i);
      PoolsAreFated(rows, cfg, |rows|, i);
    }
    forall i | 0 <= i < |now| ensures LivesAsFated(now[i], rows, cfg, row + 1) {
      PoolsAreFated(rows, cfg, row + 1, i);
    }
  }

  lemma {:induction false} SharesBeforeRow(now: seq<Pool>, final: seq<Pool>, rows: seq<LiqRow>, cfg: LiqSettings,
                                           row: nat, side: Side, k: nat)
    requires row < |rows| && Continues(now, final, rows, cfg, row) && k <= |now|
    ensures Shares(final, side, row, k) == ActiveCount(now, side, k)
  {
    hide Fated, Share, IsActive;
    if k > 0 {
      SharesBeforeRow(now, final, rows, cfg, row, side, k - 1);
      assert LivesAsFated(now[k - 1], rows, cfg, row + 1) && LivesAsFated(final[k - 1], rows, cfg, |rows|);
      ShareIsActivity(now[k - 1].shape, rows, cfg, row, |rows|);
    }
  }

  lemma {:induction false} SharesAfterRow(now: seq<Pool>, final: seq<Pool>, rows: seq<LiqRow>, cfg: LiqSettings,
                                          row: nat, side: Side, k: nat)
    requires row < |rows| && Continues(now, final, rows, cfg, row) && |now| <= k <= |final|
    ensures Shares(final, side, row, k) == Shares(final, side, row, |now|)
    decreases k
  {
    hide Fated, Share;
    if k > |now| {
      SharesAfterRow(now, final, rows, cfg, row, side, k - 1);
      assert LivesAsFated(final[k - 1], rows, cfg, |rows|);
      NotYetCreated(final[k - 1].shape, rows, cfg, row);
    }
  }

  lemma {:induction false} NotYetCreated(s: PoolShape, rows: seq<LiqRow>, cfg: LiqSettings, row: nat)
    requires row < s.created < |rows|
    ensures Share(Fated(s, rows, cfg, |rows|), row) == 0
  {
    hide FateOn, SweptBy, BrokenBy;
  }

  lemma {:induction false} BalanceHolds(now: seq<Pool>, final: seq<Pool>, rows: seq<LiqRow>, cfg: LiqSettings,
                                        row: nat, side: Side)
    requires row < |rows| && Continues(now, final, rows, cfg, row)
    ensures ActiveCount(now, side, |now|) == Balance(final, side, row)
  {
    BalanceIsShares(final, side, row, |final|);
    SharesBeforeRow(now, final, rows, cfg, row, side, |now|);
    SharesAfterRow(now, final, rows, cfg, row, side, |final|);
    hide Continues, ActiveCount, Shares, Count;
  }

  /** At every row the active pools of a side are those created so far minus those
      swept, broken and expired so far, counted on the final registry. */
  lemma {:induction false} ActiveCountsBalance(rows: seq<LiqRow>, cfg: LiqSettings, row: nat, side: Side)
    requires row < |rows|
    ensures
      (if side == BSL then CellsAt(rows, cfg, row).activeBsl else CellsAt(rows, cfg, row).activeSsl)
      == Balance(EngineAt(rows, cfg, |rows|).pools, side, row)
  {
    RunContinues(rows, cfg, row);
    hide Continues, ActiveCount, Balance, Marked, RowEvents, Process;
    BalanceHolds(EngineAt(rows, cfg, row + 1).pools, EngineAt(rows, cfg, |rows|).pools, rows, cfg, row, side);
  }
}
