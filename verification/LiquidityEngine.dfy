/** The liquidity engine as it runs: pool objects updated in place, held by a
    registry, one pass over the rows. Proved to do to the objects, the event list
    and the columns what `Liquidity` does to values. */
module LiquidityEngine {
  import opened Domain
  import Spec = Liquidity
  import opened Liquidity

  class LiquidityPool {
    const shape: PoolShape
    var status: PoolStatus
    var swept: bool
    var sweptIndex: Option<nat>
    var sweepPrice: Option<real>
    var sweepClose: Option<real>
    var sweepDistance: Option<real>
    var sweepPips: Option<real>
    var sweepDirection: Option<Direction>
    var broken: bool
    var brokenIndex: Option<nat>
    var breakPrice: Option<real>
    var breakClose: Option<real>
    var breakDistance: Option<real>
    var breakPips: Option<real>
    var expired: bool
    var expiredIndex: Option<nat>

    ghost function View(): Pool
      reads this
    {
      Pool(shape, PoolLife(status, swept, sweptIndex, sweepPrice, sweepClose, sweepDistance, sweepPips, sweepDirection,
                           broken, brokenIndex, breakPrice, breakClose, breakDistance, breakPips,
                           expired, expiredIndex))
    }

    constructor (shape: PoolShape)
      ensures View() == Pool(shape, NEWBORN)
    {
      this.shape := shape;
      status := ActivePool;
      swept, sweptIndex, sweepPrice, sweepClose := false, None, None, None;
      sweepDistance, sweepPips, sweepDirection := None, None, None;
      broken, brokenIndex, breakPrice, breakClose, breakDistance, breakPips := false, None, None, None, None, None;
      expired, expiredIndex := false, None;
    }

    predicate Active()
      reads this
      ensures Active() <==> IsActive(View().life)
    {
      status == ActivePool && !swept && !broken && !expired
    }

    method MarkSwept(index: nat, price: real, close: real, distance: real, pips: real, d: Direction)
      modifies this
      ensures View() == Spec.MarkSwept(old(View()), index, price, close, distance, pips, d)
    {
      status, swept, sweptIndex := SweptPool, true, Some(index);
      sweepPrice, sweepClose, sweepDistance, sweepPips := Some(price), Some(close), Some(distance), Some(pips);
      sweepDirection := Some(d);
    }

    method MarkBroken(index: nat, price: real, close: real, distance: real, pips: real)
      modifies this
      ensures View() == Spec.MarkBroken(old(View()), index, price, close, distance, pips)
    {
      status, broken, brokenIndex := BrokenPool, true, Some(index);
      breakPrice, breakClose, breakDistance, breakPips := Some(price), Some(close), Some(distance), Some(pips);
    }

    method MarkExpired(index: nat)
      modifies this
      ensures View() == Spec.MarkExpired(old(View()), index)
    {
      status, expired, expiredIndex := ExpiredPool, true, Some(index);
    }
  }

  class LiquidityRegistry {
    var pools: seq<LiquidityPool>

    /** The registry holds distinct objects that stand for `views`, in order. */
    ghost predicate Shows(views: seq<Pool>)
      reads this, pools
    {
      && |views| == |pools|
      && (forall i, j :: 0 <= i < j < |pools| ==> pools[i] != pools[j])
      && forall i :: 0 <= i < |pools| ==> pools[i].View() == views[i]
    }

    constructor ()
      ensures pools == [] && Shows([])
    {
      pools := [];
    }

    method HasId(side: Side, number: nat) returns (found: bool)
      ensures found <==> exists i :: 0 <= i < |pools| && pools[i].shape.side == side && pools[i].shape.number == number
    {
      found := false;
      for i := 0 to |pools|
        invariant !found && forall k :: 0 <= k < i ==> !(pools[k].shape.side == side && pools[k].shape.number == number)
      {
        if pools[i].shape.side == side && pools[i].shape.number == number {
          return true;
        }
      }
    }

    /** Refuses an id that is already taken. */
    method Add(pool: LiquidityPool, ghost views: seq<Pool>) returns (added: bool)
      requires Shows(views) && pool !in pools
      modifies this
      ensures added <==> forall i :: 0 <= i < |views| ==>
                !(views[i].shape.side == pool.shape.side && views[i].shape.number == pool.shape.number)
      ensures pools == if added then old(pools) + [pool] else old(pools)
      ensures Shows(if added then views + [pool.View()] else views)
    {
      var taken := HasId(pool.shape.side, pool.shape.number);
      added := !taken;
      if added {
        pools := pools + [pool];
      }
      assert forall i :: 0 <= i < |views| ==> old(pools)[i].shape == views[i].shape;
    }

    method ExpireOld(index: nat, maxAge: nat, ghost views: seq<Pool>)
      requires Shows(views)
      modifies pools
      ensures pools == old(pools) && Shows(AgedAll(views, index, Some(maxAge)))
    {
      ghost var after := AgedAll(views, index, Some(maxAge));
      hide Aged, AgedAll, Mixed;
      AgedEach(views, index, Some(maxAge));
      MixedEnds(after, views);
      for i := 0 to |pools|
        invariant pools == old(pools) && Shows(Mixed(after, views, i))
      {
        ExpireOne(i, index, maxAge, Mixed(after, views, i));
        MixedStep(after, views, i);
      }
    }

    method ExpireOne(i: nat, index: nat, maxAge: nat, ghost views: seq<Pool>)
      requires i < |pools| == |views| && Shows(views)
      modifies pools[i]
      ensures Shows(views[i := Aged(views[i], index, Some(maxAge))])
    {
      if pools[i].Active() && index - pools[i].shape.created >= maxAge {
        pools[i].MarkExpired(index);
      }
    }

    method CountActive(side: Side, ghost views: seq<Pool>) returns (count: nat)
      requires Shows(views)
      ensures count == ActiveCount(views, side, |views|)
    {
      count := 0;
      for i := 0 to |pools|
        invariant count == ActiveCount(views, side, i)
      {
        if pools[i].Active() && pools[i].shape.side == side {
          count := count + 1;
        }
      }
    }
  }

  lemma {:induction false} AgedEach(views: seq<Pool>, index: nat, maxAge: Option<nat>)
    ensures |AgedAll(views, index, maxAge)| == |views|
    ensures forall k :: 0 <= k < |views| ==> AgedAll(views, index, maxAge)[k] == Aged(views[k], index, maxAge)
  {
  }

  // ----- Sections of the row loop -----

  lemma {:induction false} MarkOne(c: LiqCells, events: seq<LiqEvent>, e: LiqEvent)
    ensures Marked(c, events + [e]) == Mark(Marked(c, events), e)
  {
    assert (events + [e])[..|events|] == events;
  }

  method CheckOne(pool: LiquidityPool, row: LiqRow, index: nat, cfg: LiqSettings) returns (emitted: seq<LiqEvent>)
    modifies pool
    ensures pool.View() == Checked(old(pool.View()), row, index, cfg)
    ensures emitted == Announce(old(pool.View()), pool.View(), index) && |emitted| <= 1
  {
    emitted := [];
    if row.high.None? || row.low.None? || row.close.None? || !pool.Active() {
      return;
    }
    var shape, high, low, close := pool.shape, row.high.value, row.low.value, row.close.value;
    if shape.side == BSL {
      var above := high - shape.level;
      if high > shape.level && close < shape.level && above >= Scaled(cfg.minSweepPips, cfg.pip) {
        pool.MarkSwept(index, high, close, above, above / cfg.pip, Bearish);
        emitted := [LiqEvent(PoolSwept, index, Bearish, high, shape)];
      } else if close > shape.level + Scaled(cfg.breakPips, cfg.pip) {
        var distance := close - shape.level;
        pool.MarkBroken(index, high, close, distance, distance / cfg.pip);
        emitted := [LiqEvent(PoolBroken, index, Bullish, close, shape)];
      }
    } else {
      var below := shape.level - low;
      if low < shape.level && close > shape.level && below >= Scaled(cfg.minSweepPips, cfg.pip) {
        pool.MarkSwept(index, low, close, below, below / cfg.pip, Bullish);
        emitted := [LiqEvent(PoolSwept, index, Bullish, low, shape)];
      } else if close < shape.level - Scaled(cfg.breakPips, cfg.pip) {
        var distance := shape.level - close;
        pool.MarkBroken(index, low, close, distance, distance / cfg.pip);
        emitted := [LiqEvent(PoolBroken, index, Bearish, close, shape)];
      }
    }
  }

  /** Check one pool, record what it announces, and mark the row's cells. */
  method CheckAndRecord(registry: LiquidityRegistry, i: nat, row: LiqRow, index: nat, cfg: LiqSettings,
                        events: seq<LiqEvent>, cells: LiqCells, ghost blank: LiqCells, ghost views: seq<Pool>)
    returns (more: seq<LiqEvent>, marked: LiqCells)
    requires i < |registry.pools| == |views| && registry.Shows(views) && cells == Marked(blank, events)
    modifies registry.pools[i]
    ensures
      var after := Checked(views[i], row, index, cfg);
      && registry.Shows(views[i := after])
      && more == events + Announce(views[i], after, index) && marked == Marked(blank, more)
  {
    hide Checked, Announce, Marked, Mark;
    var emitted := CheckOne(registry.pools[i], row, index, cfg);
    more, marked := events + emitted, cells;
    if emitted == [] {
      assert more == events;
    } else {
      assert emitted == [emitted[0]];
      MarkOne(blank, events, emitted[0]);
      marked := Mark(cells, emitted[0]);
    }
  }

  method CheckPools(registry: LiquidityRegistry, row: LiqRow, index: nat, cfg: LiqSettings, cells: LiqCells,
                    ghost views: seq<Pool>)
    returns (events: seq<LiqEvent>, marked: LiqCells)
    requires registry.Shows(views)
    modifies registry.pools
    ensures registry.pools == old(registry.pools) && registry.Shows(CheckedAll(views, row, index, cfg))
    ensures events == AnnounceAll(views, CheckedAll(views, row, index, cfg), index, |views|)
    ensures marked == Marked(cells, events)
  {
    ghost var after := CheckedAll(views, row, index, cfg);
    hide Checked, CheckedAll, Announce, AnnounceAll, Marked, Mixed;
    events, marked := [], cells;
    CheckedEach(views, row, index, cfg);
    NothingMarked(cells, views, after, index);
    MixedEnds(after, views);
    for i := 0 to |registry.pools|
      invariant registry.pools == old(registry.pools) && registry.Shows(Mixed(after, views, i))
      invariant events == AnnounceAll(views, after, index, i) && marked == Marked(cells, events)
    {
      AnnounceNext(views, after, index, i);
      events, marked := CheckAndRecord(registry, i, row, index, cfg, events, marked, cells, Mixed(after, views, i));
      MixedStep(after, views, i);
    }
  }

  lemma {:induction false} CheckedEach(views: seq<Pool>, row: LiqRow, index: nat, cfg: LiqSettings)
    ensures |CheckedAll(views, row, index, cfg)| == |views|
    ensures forall k :: 0 <= k < |views| ==> CheckedAll(views, row, index, cfg)[k] == Checked(views[k], row, index, cfg)
  {
  }

  lemma {:induction false} NothingMarked(cells: LiqCells, before: seq<Pool>, after: seq<Pool>, index: nat)
    requires |before| == |after|
    ensures Marked(cells, []) == cells && AnnounceAll(before, after, index, 0) == []
  {
  }

  lemma {:induction false} AnnounceNext(before: seq<Pool>, after: seq<Pool>, index: nat, i: nat)
    requires i < |before| == |after|
    ensures AnnounceAll(before, after, index, i + 1)
            == AnnounceAll(before, after, index, i) + Announce(before[i], after[i], index)
  {
  }

  /** Sections 3 and 4: a swing equal to the previous one of its side. */
  method FindEqualSwing(t: Tracker, row: LiqRow, index: nat, cfg: LiqSettings)
    returns (born: Option<PoolShape>, next: Tracker)
    ensures Born(t, row, index, cfg) == if born.Some? then Some(Pool(born.value, NEWBORN)) else None
    ensures next == Tracked(t, row, index, cfg)
  {
    born, next := None, t;
    if row.tag == Some(HH) || row.tag == Some(LH) {
      if row.swingHighPrice.Some? {
        var swing := row.swingHighPrice.value;
        if t.high.Some? && Abs(swing - t.high.value.price) <= Scaled(cfg.tolerancePips, cfg.pip) {
          next := next.(highs := t.highs + 1);
          var shared := (t.high.value.price + swing) / 2.0;
          born := Some(PoolShape(BSL, t.highs + 1, shared, index, t.high.value.row, t.high.value.price, swing));
        }
        next := next.(high := Some(Swing(swing, index)));
      }
    } else if row.tag == Some(HL) || row.tag == Some(LL) {
      if row.swingLowPrice.Some? {
        var swing := row.swingLowPrice.value;
        if t.low.Some? && Abs(swing - t.low.value.price) <= Scaled(cfg.tolerancePips, cfg.pip) {
          next := next.(lows := t.lows + 1);
          var shared := (t.low.value.price + swing) / 2.0;
          born := Some(PoolShape(SSL, t.lows + 1, shared, index, t.low.value.row, t.low.value.price, swing));
        }
        next := next.(low := Some(Swing(swing, index)));
      }
    }
  }

  method AddNew(registry: LiquidityRegistry, shape: Option<PoolShape>, ghost views: seq<Pool>, ghost t: Tracker)
    requires registry.Shows(views) && NumberedBy(views, t)
    requires shape.Some? ==> shape.value.number == Groups(t, shape.value.side) + 1
    modifies registry
    ensures registry.Shows(views + if shape.Some? then [Pool(shape.value, NEWBORN)] else [])
    ensures old(registry.pools) <= registry.pools
    ensures forall i :: |old(registry.pools)| <= i < |registry.pools| ==> fresh(registry.pools[i])
  {
    assert views + [] == views;
    if shape.Some? {
      var pool := new LiquidityPool(shape.value);
      var added := registry.Add(pool, views);
      assert added;
    }
  }

  method ProcessRow(registry: LiquidityRegistry, row: LiqRow, index: nat, cfg: LiqSettings, tracker: Tracker,
                    ghost s: Engine)
    returns (next: Tracker, born: Option<PoolShape>, events: seq<LiqEvent>, cells: LiqCells)
    requires registry.Shows(s.pools) && s.tracker == tracker && NumberedBy(s.pools, s.tracker)
    modifies registry, registry.pools
    ensures registry.Shows(Process(s, row, index, cfg).pools) && next == Process(s, row, index, cfg).tracker
    ensures Born(s.tracker, row, index, cfg) == if born.Some? then Some(Pool(born.value, NEWBORN)) else None
    ensures old(registry.pools) <= registry.pools
    ensures forall i :: |old(registry.pools)| <= i < |registry.pools| ==> fresh(registry.pools[i])
    ensures events == RowEvents(s, row, index, cfg) && cells == RowCells(s, row, index, cfg)
  {
    RowDecomposes(s, row, index, cfg);
    hide *;
    StepKeepsNumbers(s, row, index, cfg);
    ghost var checked := CheckedAll(s.pools, row, index, cfg);
    events, cells := CheckPools(registry, row, index, cfg, BLANK, s.pools);
    if cfg.maxAge.Some? {
      registry.ExpireOld(index, cfg.maxAge.value, checked);
    }
    born, next := FindEqualSwing(tracker, row, index, cfg);
    AddNew(registry, born, Survivors(s, row, index, cfg), tracker);
    if born.Some? {
      var e := Creation(born.value, index);
      MarkOne(BLANK, events, e);
      events, cells := events + [e], Mark(cells, e);
    }
    var bsl := registry.CountActive(BSL, Process(s, row, index, cfg).pools);
    var ssl := registry.CountActive(SSL, Process(s, row, index, cfg).pools);
    cells := cells.(activeBsl := bsl, activeSsl := ssl);
  }

  /** How a row's results are put together from its stages. */
  lemma {:induction false} RowDecomposes(s: Engine, row: LiqRow, index: nat, cfg: LiqSettings)
    ensures
      var checked, born := CheckedAll(s.pools, row, index, cfg), Born(s.tracker, row, index, cfg);
      var after := Process(s, row, index, cfg);
      var existing := AnnounceAll(s.pools, checked, index, |s.pools|);
      && Survivors(s, row, index, cfg) == (if cfg.maxAge.Some? then AgedAll(checked, index, cfg.maxAge) else checked)
      && after.pools == Survivors(s, row, index, cfg) + (if born.Some? then [born.value] else [])
      && after.tracker == Tracked(s.tracker, row, index, cfg)
      && RowEvents(s, row, index, cfg)
         == (if born.Some? then existing + [Creation(born.value.shape, index)] else existing)
      && RowCells(s, row, index, cfg) == Marked(BLANK, RowEvents(s, row, index, cfg)).(
           activeBsl := ActiveCount(after.pools, BSL, |after.pools|),
           activeSsl := ActiveCount(after.pools, SSL, |after.pools|))
      && (born.Some? ==> born.value.shape.number == Groups(s.tracker, born.value.shape.side) + 1)
  {
    hide ActiveCount, AnnounceAll, Marked, Checked;
    var checked := CheckedAll(s.pools, row, index, cfg);
    if cfg.maxAge.None? {
      assert AgedAll(checked, index, cfg.maxAge) == checked;
    }
  }

  /** The equal-high (or equal-low) column a list of pools calls for. */
  ghost predicate MarksEquals(column: seq<Option<PoolShape>>, pools: seq<Pool>, side: Side) {
    forall r :: 0 <= r < |column| ==> column[r] == EqualMark(pools, side, r, |pools|)
  }

  lemma {:induction false} SameShapesSameMarks(before: seq<Pool>, after: seq<Pool>, side: Side, r: nat, n: nat)
    requires n <= |before| && n <= |after| && forall i :: 0 <= i < n ==> before[i].shape == after[i].shape
    ensures EqualMark(before, side, r, n) == EqualMark(after, side, r, n)
  {
    if n > 0 {
      SameShapesSameMarks(before, after, side, r, n - 1);
    }
  }

  /** A pool born on this row marks its own row and the row of its first swing. */
  method WriteEquals(column: seq<Option<PoolShape>>, born: Option<PoolShape>, side: Side, ghost s: Engine,
                     row: LiqRow, index: nat, cfg: LiqSettings)
    returns (next: seq<Option<PoolShape>>)
    requires index < |column| && MarksEquals(column, s.pools, side)
    requires Born(s.tracker, row, index, cfg) == if born.Some? then Some(Pool(born.value, NEWBORN)) else None
    requires born.Some? ==> born.value.firstIndex < index && born.value.created == index
    ensures |next| == |column| && MarksEquals(next, Process(s, row, index, cfg).pools, side)
  {
    next := column;
    if born.Some? && born.value.side == side {
      next := next[index := born];
      next := next[born.value.firstIndex := born];
    }
    ghost var kept, after := Survivors(s, row, index, cfg), Process(s, row, index, cfg).pools;
    forall r | 0 <= r < |next| ensures next[r] == EqualMark(after, side, r, |after|) {
      forall i | 0 <= i < |s.pools| ensures |kept| == |s.pools| && kept[i].shape == s.pools[i].shape {
        ShapesStay(s, row, index, cfg, i);
      }
      SameShapesSameMarks(s.pools, after, side, r, |s.pools|);
    }
  }

  method ProcessAndMark(registry: LiquidityRegistry, row: LiqRow, index: nat, cfg: LiqSettings, tracker: Tracker,
                        highs: seq<Option<PoolShape>>, lows: seq<Option<PoolShape>>, ghost s: Engine)
    returns (next: Tracker, equalHigh: seq<Option<PoolShape>>, equalLow: seq<Option<PoolShape>>,
             events: seq<LiqEvent>, cells: LiqCells)
    requires registry.Shows(s.pools) && s.tracker == tracker && NumberedBy(s.pools, s.tracker)
             && LooksBack(tracker, index)
    requires index < |highs| && MarksEquals(highs, s.pools, BSL)
    requires index < |lows| && MarksEquals(lows, s.pools, SSL)
    modifies registry, registry.pools
    ensures registry.Shows(Process(s, row, index, cfg).pools) && next == Process(s, row, index, cfg).tracker
    ensures old(registry.pools) <= registry.pools
    ensures forall i :: |old(registry.pools)| <= i < |registry.pools| ==> fresh(registry.pools[i])
    ensures |equalHigh| == |highs| && MarksEquals(equalHigh, Process(s, row, index, cfg).pools, BSL)
    ensures |equalLow| == |lows| && MarksEquals(equalLow, Process(s, row, index, cfg).pools, SSL)
    ensures events == RowEvents(s, row, index, cfg) && cells == RowCells(s, row, index, cfg)
  {
    hide *;
    var born;
    next, born, events, cells := ProcessRow(registry, row, index, cfg, tracker, s);
    BornLooksBack(s.tracker, row, index, cfg);
    equalHigh := WriteEquals(highs, born, BSL, s, row, index, cfg);
    equalLow := WriteEquals(lows, born, SSL, s, row, index, cfg);
  }

  /** What the pass has written after `p` rows. */
  ghost predicate WrittenUpTo(rows: seq<LiqRow>, cfg: LiqSettings, p: nat, columns: seq<LiqCells>,
                              equalHigh: seq<Option<PoolShape>>, equalLow: seq<Option<PoolShape>>,
                              events: seq<LiqEvent>)
    requires p <= |rows|
  {
    && |columns| == p && (forall i :: 0 <= i < p ==> columns[i] == CellsAt(rows, cfg, i))
    && |equalHigh| == |rows| && MarksEquals(equalHigh, EngineAt(rows, cfg, p).pools, BSL)
    && |equalLow| == |rows| && MarksEquals(equalLow, EngineAt(rows, cfg, p).pools, SSL)
    && events == EventsUpTo(rows, cfg, p)
  }

  lemma {:induction false} NothingWritten(rows: seq<LiqRow>, cfg: LiqSettings, equalHigh: seq<Option<PoolShape>>,
                                        equalLow: seq<Option<PoolShape>>)
    requires |equalHigh| == |equalLow| == |rows|
    requires forall i :: 0 <= i < |rows| ==> equalHigh[i].None? && equalLow[i].None?
    ensures WrittenUpTo(rows, cfg, 0, [], equalHigh, equalLow, [])
    ensures EngineAt(rows, cfg, 0) == Engine([], UNTRACKED)
  {
  }

  lemma {:induction false} OneMoreWritten(rows: seq<LiqRow>, cfg: LiqSettings, p: nat, columns: seq<LiqCells>,
                       highs: seq<Option<PoolShape>>, lows: seq<Option<PoolShape>>, events: seq<LiqEvent>,
                       equalHigh: seq<Option<PoolShape>>, equalLow: seq<Option<PoolShape>>)
    requires p < |rows| && WrittenUpTo(rows, cfg, p, columns, highs, lows, events)
    requires |equalHigh| == |equalLow| == |rows|
    requires MarksEquals(equalHigh, Process(EngineAt(rows, cfg, p), rows[p], p, cfg).pools, BSL)
    requires MarksEquals(equalLow, Process(EngineAt(rows, cfg, p), rows[p], p, cfg).pools, SSL)
    ensures WrittenUpTo(rows, cfg, p + 1, columns + [CellsAt(rows, cfg, p)], equalHigh, equalLow,
                        events + RowEvents(EngineAt(rows, cfg, p), rows[p], p, cfg))
  {
    hide Process, RowCells, RowEvents, MarksEquals;
  }

  /** The whole pass; bad settings are rejected before the first row, a bad age
      limit on it. */
  method DetectLiquidity(rows: seq<LiqRow>, cfg: LiqSettings)
    returns (accepted: bool, columns: seq<LiqCells>,
             equalHigh: seq<Option<PoolShape>>, equalLow: seq<Option<PoolShape>>,
             registry: LiquidityRegistry, events: seq<LiqEvent>)
    ensures accepted <==> ValidSettings(cfg) && (rows == [] || ValidAge(cfg))
    ensures accepted ==> WrittenUpTo(rows, cfg, |rows|, columns, equalHigh, equalLow, events)
    ensures accepted ==> registry.Shows(EngineAt(rows, cfg, |rows|).pools)
  {
    hide Process, WrittenUpTo, ValidSettings, LiquidityRegistry.Shows;
    equalHigh, equalLow := seq(|rows|, i => None), seq(|rows|, i => None);
    registry := new LiquidityRegistry();
    columns, events := [], [];
    accepted := ValidSettings(cfg) && (rows == [] || ValidAge(cfg));
    if !accepted {
      return;
    }
    NothingWritten(rows, cfg, equalHigh, equalLow);
    var tracker := UNTRACKED;
    for index := 0 to |rows|
      invariant fresh(registry) && forall i :: 0 <= i < |registry.pools| ==> fresh(registry.pools[i])
      invariant registry.Shows(EngineAt(rows, cfg, index).pools) && tracker == EngineAt(rows, cfg, index).tracker
      invariant WrittenUpTo(rows, cfg, index, columns, equalHigh, equalLow, events)
    {
      tracker, columns, equalHigh, equalLow, events :=
        Advance(registry, rows, index, cfg, tracker, columns, equalHigh, equalLow, events);
    }
  }

  /** One pass through the loop body. */
  method Advance(registry: LiquidityRegistry, rows: seq<LiqRow>, index: nat, cfg: LiqSettings, tracker: Tracker,
                 columns: seq<LiqCells>, highs: seq<Option<PoolShape>>, lows: seq<Option<PoolShape>>,
                 events: seq<LiqEvent>)
    returns (next: Tracker, columns': seq<LiqCells>,
             equalHigh: seq<Option<PoolShape>>, equalLow: seq<Option<PoolShape>>,
             events': seq<LiqEvent>)
    requires index < |rows| && WrittenUpTo(rows, cfg, index, columns, highs, lows, events)
    requires registry.Shows(EngineAt(rows, cfg, index).pools) && tracker == EngineAt(rows, cfg, index).tracker
    modifies registry, registry.pools
    ensures registry.Shows(EngineAt(rows, cfg, index + 1).pools) && next == EngineAt(rows, cfg, index + 1).tracker
    ensures old(registry.pools) <= registry.pools
    ensures forall i :: |old(registry.pools)| <= i < |registry.pools| ==> fresh(registry.pools[i])
    ensures WrittenUpTo(rows, cfg, index + 1, columns', equalHigh, equalLow, events')
  {
    ghost var s := EngineAt(rows, cfg, index);
    assert EngineAt(rows, cfg, index + 1) == Process(s, rows[index], index, cfg);
    assert CellsAt(rows, cfg, index) == RowCells(s, rows[index], index, cfg);
    assert |highs| == |lows| == |rows| && MarksEquals(highs, s.pools, BSL) && MarksEquals(lows, s.pools, SSL);
    hide *;
    RunsAreNumbered(rows, cfg, index);
    TrackerLooksBack(rows, cfg, index);
    var emitted, cells;
    next, equalHigh, equalLow, emitted, cells :=
      ProcessAndMark(registry, rows[index], index, cfg, tracker, highs, lows, s);
    OneMoreWritten(rows, cfg, index, columns, highs, lows, events, equalHigh, equalLow);
    columns', events' := columns + [cells], events + emitted;
  }
}
