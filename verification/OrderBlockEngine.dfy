/** The Order Block engine as it runs: block objects updated in place, held by a
    registry, one pass over the rows. Proved to do to the objects, the event list
    and the columns what `OrderBlocks` does to values. */
module OrderBlockEngine {
  import opened Domain
  import Spec = OrderBlocks
  import opened OrderBlocks

  class OrderBlock {
    const shape: Shape
    var status: BlockStatus
    var standing: Standing
    var confirmedBy: Option<SourceId>
    var confirmedIndex: Option<nat>
    var mitigated: bool
    var mitigatedIndex: Option<nat>
    var mitigationPrice: Option<real>
    var mitigationDepth: Option<real>
    var mitigationPercentage: Option<real>
    var invalidated: bool
    var invalidatedIndex: Option<nat>
    var invalidationPrice: Option<real>
    var reason: Option<Reason>
    var expired: bool
    var expiredIndex: Option<nat>
    var touches: nat

    ghost function View(): Block
      reads this
    {
      Block(shape, Life(status, standing, confirmedBy, confirmedIndex,
                        mitigated, mitigatedIndex, mitigationPrice, mitigationDepth, mitigationPercentage,
                        invalidated, invalidatedIndex, invalidationPrice, reason, expired, expiredIndex, touches))
    }

    constructor (shape: Shape, standing: Standing)
      ensures View() == Block(shape, Newborn(standing))
    {
      this.shape := shape;
      status, this.standing, confirmedBy, confirmedIndex := ActiveBlock, standing, None, None;
      mitigated, mitigatedIndex, mitigationPrice := false, None, None;
      mitigationDepth, mitigationPercentage := None, None;
      invalidated, invalidatedIndex, invalidationPrice, reason := false, None, None, None;
      expired, expiredIndex, touches := false, None, 0;
    }

    predicate Active()
      reads this
      ensures Active() <==> IsActive(View().life)
    {
      status == ActiveBlock && !mitigated && !invalidated && !expired
    }

    method MarkMitigated(index: nat, price: real)
      modifies this
      ensures View() == Spec.MarkMitigated(old(View()), index, price)
    {
      hide MinReal, MaxReal, Abs;
      status, mitigated, mitigatedIndex, mitigationPrice := MitigatedBlock, true, Some(index), Some(price);
      touches := touches + 1;
      var range := RangeSize(shape);
      if range <= 0.0 {
        mitigationDepth, mitigationPercentage := Some(0.0), Some(0.0);
        return;
      }
      var depth := if shape.dir == Bullish then shape.high - price else price - shape.low;
      depth := MaxReal(0.0, MinReal(depth, range));
      mitigationDepth := Some(depth);
      mitigationPercentage := Some(depth / range * 100.0);
    }

    method MarkInvalidated(index: nat, price: Option<real>, why: Reason)
      modifies this
      ensures View() == Spec.MarkInvalidated(old(View()), index, price, why)
    {
      status, invalidated, invalidatedIndex := InvalidatedBlock, true, Some(index);
      invalidationPrice, reason := price, Some(why);
    }

    method MarkConfirmed(index: nat, event: SourceId)
      modifies this
      ensures View() == Spec.MarkConfirmed(old(View()), index, event)
    {
      standing, confirmedBy, confirmedIndex := Confirmed, Some(event), Some(index);
    }

    method MarkExpired(index: nat)
      modifies this
      ensures View() == Spec.MarkExpired(old(View()), index)
    {
      status, expired, expiredIndex := ExpiredBlock, true, Some(index);
    }
  }

  class OrderBlockRegistry {
    var blocks: seq<OrderBlock>

    /** The registry holds distinct objects that stand for `views`, in order. */
    ghost predicate Shows(views: seq<Block>)
      reads this, blocks
    {
      && |views| == |blocks|
      && (forall i, j :: 0 <= i < j < |blocks| ==> blocks[i] != blocks[j])
      && forall i :: 0 <= i < |blocks| ==> blocks[i].View() == views[i]
    }

    constructor ()
      ensures blocks == [] && Shows([])
    {
      blocks := [];
    }

    method HasId(id: nat) returns (found: bool)
      ensures found <==> exists i :: 0 <= i < |blocks| && blocks[i].shape.id == id
    {
      found := false;
      for i := 0 to |blocks|
        invariant !found && forall k :: 0 <= k < i ==> blocks[k].shape.id != id
      {
        if blocks[i].shape.id == id {
          return true;
        }
      }
    }

    /** Refuses an id that is already taken. */
    method Add(block: OrderBlock, ghost views: seq<Block>) returns (added: bool)
      requires Shows(views) && block !in blocks
      modifies this
      ensures added <==> forall i :: 0 <= i < |views| ==> views[i].shape.id != block.shape.id
      ensures blocks == if added then old(blocks) + [block] else old(blocks)
      ensures Shows(if added then views + [block.View()] else views)
    {
      var taken := HasId(block.shape.id);
      added := !taken;
      if added {
        blocks := blocks + [block];
      }
      assert forall i :: 0 <= i < |views| ==> old(blocks)[i].shape == views[i].shape;
    }

    method CountActive(d: Direction, ghost views: seq<Block>) returns (count: nat)
      requires Shows(views)
      ensures count == ActiveCount(views, d, |views|)
    {
      count := 0;
      for i := 0 to |blocks|
        invariant count == ActiveCount(views, d, i)
      {
        if blocks[i].Active() && blocks[i].shape.dir == d {
          count := count + 1;
        }
      }
    }
  }

  // ----- Sections of the row loop -----

  lemma {:induction false} MarkedAppend(c: ObCells, events: seq<ObEvent>, more: seq<ObEvent>)
    ensures Marked(c, events + more) == Marked(Marked(c, events), more)
  {
    if more == [] {
      assert events + more == events;
    } else {
      var last := |more| - 1;
      MarkedAppend(c, events, more[..last]);
      assert (events + more)[..|events + more| - 1] == events + more[..last];
    }
  }

  lemma {:induction false} MarkOne(c: ObCells, events: seq<ObEvent>, e: ObEvent)
    ensures Marked(c, events + [e]) == Mark(Marked(c, events), e)
  {
    assert (events + [e])[..|events|] == events;
  }

  /** Section 1 on one block. */
  method PriceOne(block: OrderBlock, row: ObRow, position: nat, clearance: real) returns (emitted: seq<ObEvent>)
    modifies block
    ensures block.View() == Priced(old(block.View()), row, position, clearance)
    ensures emitted == Announce(old(block.View()), block.View(), position) && |emitted| <= 1
  {
    emitted := [];
    if row.high.None? || row.low.None? || row.close.None? || !block.Active() || position <= block.shape.created {
      return;
    }
    var shape, high, low, close := block.shape, row.high.value, row.low.value, row.close.value;
    if shape.dir == Bullish {
      if close < shape.distal - clearance {
        block.MarkInvalidated(position, Some(close), PricePenetration);
        emitted := [ObEvent(BlockInvalidated, position, Bearish, Some(close), shape, None)];
      } else if low <= shape.high && high >= shape.low {
        var price := MinReal(MaxReal(low, shape.low), shape.high);
        block.MarkMitigated(position, price);
        emitted := [ObEvent(BlockMitigated, position, Bullish, Some(price), shape, block.mitigationPercentage)];
      }
    } else {
      if close > shape.distal + clearance {
        block.MarkInvalidated(position, Some(close), PricePenetration);
        emitted := [ObEvent(BlockInvalidated, position, Bullish, Some(close), shape, None)];
      } else if high >= shape.low && low <= shape.high {
        var price := MaxReal(MinReal(high, shape.high), shape.low);
        block.MarkMitigated(position, price);
        emitted := [ObEvent(BlockMitigated, position, Bearish, Some(price), shape, block.mitigationPercentage)];
      }
    }
  }

  lemma {:induction false} PricedEach(views: seq<Block>, row: ObRow, position: nat, clearance: real)
    ensures |PricedAll(views, row, position, clearance)| == |views|
    ensures forall k :: 0 <= k < |views| ==>
              PricedAll(views, row, position, clearance)[k] == Priced(views[k], row, position, clearance)
  {
  }

  lemma {:induction false} CascadedEach(views: seq<Block>, row: ObRow, position: nat)
    ensures |CascadedAll(views, row, position)| == |views|
    ensures forall k :: 0 <= k < |views| ==> CascadedAll(views, row, position)[k] == Cascaded(views[k], row, position)
  {
  }

  lemma {:induction false} AgedEach(views: seq<Block>, position: nat, maxAge: Option<nat>)
    ensures |AgedAll(views, position, maxAge)| == |views|
    ensures forall k :: 0 <= k < |views| ==> AgedAll(views, position, maxAge)[k] == Aged(views[k], position, maxAge)
  {
  }

  lemma {:induction false} NoneExpired(before: seq<Block>, after: seq<Block>)
    requires |before| == |after|
    ensures LastExpired(before, after, 0) == None
  {
  }

  lemma {:induction false} NextExpired(before: seq<Block>, after: seq<Block>, i: nat)
    requires i < |before| == |after|
    ensures LastExpired(before, after, i + 1)
            == if before[i] != after[i] then Some(after[i].shape.id) else LastExpired(before, after, i)
  {
  }

  lemma {:induction false} AnnounceNext(before: seq<Block>, after: seq<Block>, position: nat, i: nat)
    requires i < |before| == |after|
    ensures AnnounceAll(before, after, position, i + 1)
            == AnnounceAll(before, after, position, i) + Announce(before[i], after[i], position)
  {
  }

  lemma {:induction false} NothingMarked(cells: ObCells, before: seq<Block>, after: seq<Block>, position: nat)
    requires |before| == |after|
    ensures Marked(cells, []) == cells && AnnounceAll(before, after, position, 0) == []
  {
  }

  /** Update one block, record what it announces, and mark the row's cells. */
  method PriceAndRecord(registry: OrderBlockRegistry, i: nat, row: ObRow, position: nat, clearance: real,
                        events: seq<ObEvent>, cells: ObCells, ghost blank: ObCells, ghost views: seq<Block>)
    returns (more: seq<ObEvent>, marked: ObCells)
    requires i < |registry.blocks| == |views| && registry.Shows(views) && cells == Marked(blank, events)
    modifies registry.blocks[i]
    ensures
      var after := Priced(views[i], row, position, clearance);
      && registry.Shows(views[i := after])
      && more == events + Announce(views[i], after, position) && marked == Marked(blank, more)
  {
    hide Priced, Announce, Marked, Mark;
    var emitted := PriceOne(registry.blocks[i], row, position, clearance);
    more, marked := events + emitted, cells;
    if emitted == [] {
      assert more == events;
    } else {
      assert emitted == [emitted[0]];
      MarkOne(blank, events, emitted[0]);
      marked := Mark(cells, emitted[0]);
    }
  }

  method UpdateByPrice(registry: OrderBlockRegistry, row: ObRow, position: nat, clearance: real, cells: ObCells,
                       ghost views: seq<Block>)
    returns (events: seq<ObEvent>, marked: ObCells)
    requires registry.Shows(views)
    modifies registry.blocks
    ensures registry.blocks == old(registry.blocks) && registry.Shows(PricedAll(views, row, position, clearance))
    ensures events == AnnounceAll(views, PricedAll(views, row, position, clearance), position, |views|)
    ensures marked == Marked(cells, events)
  {
    ghost var after := PricedAll(views, row, position, clearance);
    hide Priced, PricedAll, Announce, AnnounceAll, Marked, Mixed;
    PricedEach(views, row, position, clearance);
    events, marked := [], cells;
    NothingMarked(cells, views, after, position);
    MixedEnds(after, views);
    for i := 0 to |registry.blocks|
      invariant registry.blocks == old(registry.blocks) && registry.Shows(Mixed(after, views, i))
      invariant events == AnnounceAll(views, after, position, i) && marked == Marked(cells, events)
    {
      AnnounceNext(views, after, position, i);
      events, marked := PriceAndRecord(registry, i, row, position, clearance, events, marked, cells,
                                       Mixed(after, views, i));
      MixedStep(after, views, i);
    }
  }

  method CascadeAndRecord(registry: OrderBlockRegistry, i: nat, row: ObRow, position: nat,
                          events: seq<ObEvent>, cells: ObCells, ghost blank: ObCells, ghost views: seq<Block>)
    returns (more: seq<ObEvent>, marked: ObCells)
    requires i < |registry.blocks| == |views| && registry.Shows(views) && cells == Marked(blank, events)
    modifies registry.blocks[i]
    ensures
      var after := Cascaded(views[i], row, position);
      && registry.Shows(views[i := after])
      && more == events + Announce(views[i], after, position) && marked == Marked(blank, more)
  {
    hide Marked, Mark, Cascades;
    var block := registry.blocks[i];
    more, marked := events, cells;
    if Cascades(block.shape, row) && block.status == ActiveBlock {
      block.MarkInvalidated(position, row.close, MssInvalidation);
      var e := ObEvent(BlockInvalidated, position, Opposite(block.shape.dir), row.close, block.shape, None);
      MarkOne(blank, events, e);
      more, marked := events + [e], Mark(cells, e);
    } else {
      assert events + [] == events;
    }
  }

  method CascadeInvalidation(registry: OrderBlockRegistry, row: ObRow, position: nat, cells: ObCells,
                             ghost views: seq<Block>)
    returns (events: seq<ObEvent>, marked: ObCells)
    requires registry.Shows(views)
    modifies registry.blocks
    ensures registry.blocks == old(registry.blocks) && registry.Shows(CascadedAll(views, row, position))
    ensures events == AnnounceAll(views, CascadedAll(views, row, position), position, |views|)
    ensures marked == Marked(cells, events)
  {
    ghost var after := CascadedAll(views, row, position);
    hide Cascaded, CascadedAll, Announce, AnnounceAll, Marked, Mixed;
    CascadedEach(views, row, position);
    events, marked := [], cells;
    NothingMarked(cells, views, after, position);
    MixedEnds(after, views);
    for i := 0 to |registry.blocks|
      invariant registry.blocks == old(registry.blocks) && registry.Shows(Mixed(after, views, i))
      invariant events == AnnounceAll(views, after, position, i) && marked == Marked(cells, events)
    {
      AnnounceNext(views, after, position, i);
      events, marked := CascadeAndRecord(registry, i, row, position, events, marked, cells, Mixed(after, views, i));
      MixedStep(after, views, i);
    }
  }

  method PromotePending(registry: OrderBlockRegistry, row: ObRow, position: nat, pending: Option<nat>, cells: ObCells,
                        ghost views: seq<Block>)
    returns (ghost promoted: Option<nat>, anchor: Option<nat>, events: seq<ObEvent>, marked: ObCells)
    requires registry.Shows(views)
    modifies registry.blocks
    ensures registry.blocks == old(registry.blocks)
    ensures promoted == Promoted(views, row, position, pending)
    ensures promoted.Some? ==> promoted.value < |views|
    ensures anchor == if promoted.Some? then Some(views[promoted.value].shape.candle) else None
    ensures registry.Shows(Promote(views, promoted, position))
    ensures events == if promoted.Some? then [Confirmation(views[promoted.value].shape, position)] else []
    ensures marked == Marked(cells, events)
  {
    promoted, anchor, events, marked := None, None, [], cells;
    if row.event != Some(CHoCH) || pending.None? {
      return;
    }
    for i := 0 to |registry.blocks|
      invariant promoted.None? && Promoted(views, row, position, pending) == FindProvisional(views, pending.value, i)
    {
      var block := registry.blocks[i];
      if block.shape.source == SourceId(MSS, pending.value) && block.standing == Provisional {
        assert FindProvisional(views, pending.value, i) == Some(i);
        block.MarkConfirmed(position, SourceId(CHoCH, position));
        var e := Confirmation(block.shape, position);
        assert [e][..0] == [];
        promoted, anchor, events, marked := Some(i), Some(block.shape.candle), [e], Mark(cells, e);
        return;
      }
    }
  }

  method ExpireOne(registry: OrderBlockRegistry, i: nat, position: nat, maxAge: Option<nat>, ghost views: seq<Block>)
    returns (expired: Option<nat>)
    requires i < |registry.blocks| == |views| && registry.Shows(views)
    modifies registry.blocks[i]
    ensures
      var after := Aged(views[i], position, maxAge);
      && registry.Shows(views[i := after])
      && expired == if views[i] != after then Some(after.shape.id) else None
  {
    expired := None;
    var block := registry.blocks[i];
    if maxAge.Some? && block.Active() && position - block.shape.created >= maxAge.value {
      block.MarkExpired(position);
      expired := Some(block.shape.id);
    }
  }

  method ExpireOld(registry: OrderBlockRegistry, position: nat, maxAge: Option<nat>, ghost views: seq<Block>)
    returns (last: Option<nat>)
    requires registry.Shows(views)
    modifies registry.blocks
    ensures registry.blocks == old(registry.blocks) && registry.Shows(AgedAll(views, position, maxAge))
    ensures last == LastExpired(views, AgedAll(views, position, maxAge), |views|)
  {
    ghost var after := AgedAll(views, position, maxAge);
    hide Aged, AgedAll, LastExpired, Mixed;
    AgedEach(views, position, maxAge);
    NoneExpired(views, after);
    last := None;
    MixedEnds(after, views);
    for i := 0 to |registry.blocks|
      invariant registry.blocks == old(registry.blocks) && registry.Shows(Mixed(after, views, i))
      invariant last == LastExpired(views, after, i)
    {
      NextExpired(views, after, i);
      var expired := ExpireOne(registry, i, position, maxAge, Mixed(after, views, i));
      MixedStep(after, views, i);
      if expired.Some? {
        last := expired;
      }
    }
  }

  method FindOrderBlockCandle(rows: seq<ObRow>, position: nat, d: Direction, lookback: nat) returns (found: Option<nat>)
    requires position <= |rows|
    ensures found == SourceCandle(rows, position, d, lookback)
  {
    var first := if position < lookback then 0 else position - lookback;
    var i := position;
    while i > first
      invariant first <= i <= position
      invariant SourceCandle(rows, position, d, lookback) == LastOpposing(rows, d, first, i)
    {
      i := i - 1;
      if Opposes(rows[i], d) {
        return Some(i);
      }
    }
    return None;
  }

  method SweepConfirmed(rows: seq<ObRow>, from: nat, event: nat, d: Direction) returns (swept: bool)
    requires event < |rows|
    ensures swept <==> SweptBetween(rows, from, event, d)
  {
    var i := from;
    while i <= event
      invariant forall k :: from <= k < i && k <= event ==> rows[k].sweep != Some(d)
    {
      if rows[i].sweep == Some(d) {
        return true;
      }
      i := i + 1;
    }
    return false;
  }

  /** Section 3: the block this row gives birth to, as a value. */
  method FindNewBlock(rows: seq<ObRow>, position: nat, cfg: Settings, id: nat) returns (born: Option<Block>)
    requires position < |rows|
    ensures born == Born(rows, position, cfg, id)
  {
    var row := rows[position];
    if !Eligible(row, cfg) || position == 0 || row.atr.None? || row.atr.value <= 0.0 {
      return None;
    }
    var d := row.dir.value;
    if !StrongBody(row, d, cfg.minBody) {
      return None;
    }
    var at := FindOrderBlockCandle(rows, position, d, cfg.lookback);
    if at.None? || rows[at.value].high.None? || rows[at.value].low.None? {
      return None;
    }
    var source := rows[at.value];
    var distance := Displacement(source, row.close.value, d);
    var swept := SweepConfirmed(rows, at.value, position, d);
    if distance < row.atr.value * cfg.minDisplacement || (cfg.requireSweep && !swept) {
      return None;
    }
    var high, low := source.high.value, source.low.value;
    var proximal, distal := if d == Bullish then high else low, if d == Bullish then low else high;
    return Some(Block(
      Shape(id, d, position, at.value, high, low, source.open.value, source.close.value, proximal, distal,
            SourceId(row.event.value, position), row.brokenLevel, distance, distance / cfg.pip, row.atr.value),
      Newborn(if row.event == Some(MSS) then Provisional else Confirmed)));
  }

  // ----- The row loop -----

  /** How the stages of a row follow from one another. */
  lemma {:induction false} SurveyDecomposes(s: Engine, rows: seq<ObRow>, position: nat, cfg: Settings)
    requires position < |rows|
    ensures
      var row, stage := rows[position], Survey(s, rows, position, cfg);
      var pending := if row.event == Some(MSSInvalidated) then None else s.pending;
      && stage.priced == PricedAll(s.blocks, row, position, Clearance(cfg))
      && stage.cascaded == CascadedAll(stage.priced, row, position)
      && stage.promoted == Promoted(stage.cascaded, row, position, pending)
      && stage.confirmed == Promote(stage.cascaded, stage.promoted, position)
      && stage.aged == AgedAll(stage.confirmed, position, cfg.maxAge)
      && stage.pending == (if row.event == Some(CHoCH) then None else pending)
      && (stage.promoted.Some? ==>
            stage.confirmed[stage.promoted.value].shape.candle == stage.cascaded[stage.promoted.value].shape.candle)
      && stage.skip == (stage.promoted.Some? && row.dir.Some?
           && SourceCandle(rows, position, row.dir.value, cfg.lookback)
              == Some(stage.cascaded[stage.promoted.value].shape.candle))
      && ExistingEvents(s.blocks, stage, position)
         == AnnounceAll(s.blocks, stage.priced, position, |s.blocks|)
            + AnnounceAll(stage.priced, stage.cascaded, position, |s.blocks|)
            + if stage.promoted.Some? then [Confirmation(stage.cascaded[stage.promoted.value].shape, position)] else []
  {
    hide PricedAll, CascadedAll, AgedAll, SourceCandle, AnnounceAll, FindProvisional;
  }

  /** Sections 1 and 1b. */
  method SettlePrices(registry: OrderBlockRegistry, row: ObRow, position: nat, clearance: real, ghost views: seq<Block>)
    returns (events: seq<ObEvent>, cells: ObCells)
    requires registry.Shows(views)
    modifies registry.blocks
    ensures registry.blocks == old(registry.blocks)
    ensures
      var priced := PricedAll(views, row, position, clearance);
      var cascaded := CascadedAll(priced, row, position);
      && registry.Shows(cascaded)
      && events == AnnounceAll(views, priced, position, |views|) + AnnounceAll(priced, cascaded, position, |views|)
      && cells == Marked(BLANK, events)
  {
    ghost var priced := PricedAll(views, row, position, clearance);
    hide Priced, Cascaded, CascadedAll, AnnounceAll, Marked, OrderBlockRegistry.Shows;
    var first, marked := UpdateByPrice(registry, row, position, clearance, BLANK, views);
    var second;
    second, cells := CascadeInvalidation(registry, row, position, marked, priced);
    events := first + second;
    MarkedAppend(BLANK, first, second);
  }

  /** Section 1c: promotion, and whether it stands in for a new block. */
  method ResolvePending(registry: OrderBlockRegistry, rows: seq<ObRow>, position: nat, cfg: Settings,
                        pending: Option<nat>, cells: ObCells, ghost views: seq<Block>)
    returns (skip: bool, events: seq<ObEvent>, marked: ObCells)
    requires position < |rows| && registry.Shows(views)
    modifies registry.blocks
    ensures registry.blocks == old(registry.blocks)
    ensures
      var row := rows[position];
      var promoted := Promoted(views, row, position, pending);
      && (promoted.Some? ==> promoted.value < |views|)
      && registry.Shows(Promote(views, promoted, position))
      && skip == (promoted.Some? && row.dir.Some?
                  && SourceCandle(rows, position, row.dir.value, cfg.lookback)
                     == Some(views[promoted.value].shape.candle))
      && events == (if promoted.Some? then [Confirmation(views[promoted.value].shape, position)] else [])
      && marked == Marked(cells, events)
  {
    hide Promoted, Promote, SourceCandle, Marked, OrderBlockRegistry.Shows;
    var row := rows[position];
    ghost var promoted;
    var anchor;
    promoted, anchor, events, marked := PromotePending(registry, row, position, pending, cells, views);
    skip := false;
    if anchor.Some? && row.dir.Some? {
      var candle := FindOrderBlockCandle(rows, position, row.dir.value, cfg.lookback);
      skip := candle == anchor;
    }
  }

  /** Sections 1 to 2: everything that happens to the blocks already there. */
  method UpdateExisting(registry: OrderBlockRegistry, rows: seq<ObRow>, position: nat, cfg: Settings,
                        pending: Option<nat>, ghost s: Engine)
    returns (resolved: Option<nat>, skip: bool, expired: Option<nat>, events: seq<ObEvent>, cells: ObCells)
    requires position < |rows| && registry.Shows(s.blocks) && s.pending == pending
    modifies registry.blocks
    ensures registry.blocks == old(registry.blocks)
    ensures
      var stage := Survey(s, rows, position, cfg);
      && registry.Shows(stage.aged)
      && resolved == stage.pending && skip == stage.skip
      && expired == LastExpired(stage.confirmed, stage.aged, |s.blocks|)
      && events == ExistingEvents(s.blocks, stage, position) && cells == Marked(BLANK, events)
  {
    var row := rows[position];
    ghost var stage := Survey(s, rows, position, cfg);
    SurveyDecomposes(s, rows, position, cfg);
    hide Survey, PricedAll, CascadedAll, Promoted, Promote, AgedAll, SourceCandle, Marked, AnnounceAll, LastExpired,
         ExistingEvents, OrderBlockRegistry.Shows;
    resolved := pending;
    var settled, settledCells := SettlePrices(registry, row, position, Clearance(cfg), s.blocks);
    if row.event == Some(MSSInvalidated) {
      resolved := None;
    }
    var confirmed;
    skip, confirmed, cells := ResolvePending(registry, rows, position, cfg, resolved, settledCells, stage.cascaded);
    if row.event == Some(CHoCH) {
      resolved := None;
    }
    expired := ExpireOld(registry, position, cfg.maxAge, stage.confirmed);
    events := settled + confirmed;
    MarkedAppend(BLANK, settled, confirmed);
  }

  /** Section 3: add the block the row gives birth to. */
  method AddNew(registry: OrderBlockRegistry, rows: seq<ObRow>, position: nat, cfg: Settings, ghost views: seq<Block>)
    returns (born: Option<Shape>)
    requires position < |rows| && registry.Shows(views) && Numbered(views)
    modifies registry
    ensures
      var b := Born(rows, position, cfg, |views| + 1);
      && born == (if b.Some? then Some(b.value.shape) else None)
      && registry.Shows(if b.Some? then views + [b.value] else views)
    ensures old(registry.blocks) <= registry.blocks
    ensures forall i :: |old(registry.blocks)| <= i < |registry.blocks| ==> fresh(registry.blocks[i])
  {
    var found := FindNewBlock(rows, position, cfg, |registry.blocks| + 1);
    born := None;
    if found.Some? {
      BornIsNew(rows, position, cfg, |views| + 1);
      var block := new OrderBlock(found.value.shape, found.value.life.standing);
      var added := registry.Add(block, views);
      assert added;
      born := Some(block.shape);
    }
  }

  lemma {:induction false} BornIsNew(rows: seq<ObRow>, position: nat, cfg: Settings, id: nat)
    requires position < |rows| && Born(rows, position, cfg, id).Some?
    ensures
      var b := Born(rows, position, cfg, id).value;
      b.shape.id == id && b == Block(b.shape, Newborn(b.life.standing))
  {
  }

  /** How a row's results are put together from its stages. */
  lemma {:induction false} RowDecomposes(s: Engine, rows: seq<ObRow>, position: nat, cfg: Settings)
    requires position < |rows|
    ensures
      var stage := Survey(s, rows, position, cfg);
      var born, next := Birth(stage, rows, position, cfg), Process(s, rows, position, cfg);
      var existing, events := ExistingEvents(s.blocks, stage, position), RowEvents(s, rows, position, cfg);
      var expired := LastExpired(stage.confirmed, stage.aged, |s.blocks|);
      && born == (if stage.skip then None else Born(rows, position, cfg, |stage.aged| + 1))
      && (born.None? ==> next == Engine(stage.aged, stage.pending) && events == existing)
      && (born.Some? ==>
            && next.blocks == stage.aged + [born.value]
            && next.pending == (if rows[position].event == Some(MSS) then Some(position) else stage.pending)
            && events == existing + [Creation(born.value.shape, position)])
      && RowCells(s, rows, position, cfg)
         == Marked(BLANK, events).(expired := expired,
              activeBullish := ActiveCount(next.blocks, Bullish, |next.blocks|),
              activeBearish := ActiveCount(next.blocks, Bearish, |next.blocks|))
  {
    hide Survey, Born, ActiveCount, LastExpired, AnnounceAll, Marked;
  }

  method ExtendRow(registry: OrderBlockRegistry, rows: seq<ObRow>, position: nat, cfg: Settings,
                   resolved: Option<nat>, skip: bool, settled: seq<ObEvent>, marked: ObCells, ghost s: Engine)
    returns (pending: Option<nat>, events: seq<ObEvent>, cells: ObCells)
    requires position < |rows| && Numbered(s.blocks)
    requires
      var stage := Survey(s, rows, position, cfg);
      && registry.Shows(stage.aged) && resolved == stage.pending && skip == stage.skip
      && settled == ExistingEvents(s.blocks, stage, position) && marked == Marked(BLANK, settled)
    modifies registry
    ensures
      var next := Process(s, rows, position, cfg);
      registry.Shows(next.blocks) && pending == next.pending
    ensures old(registry.blocks) <= registry.blocks
    ensures forall i :: |old(registry.blocks)| <= i < |registry.blocks| ==> fresh(registry.blocks[i])
    ensures events == RowEvents(s, rows, position, cfg) && cells == Marked(BLANK, events)
  {
    ghost var stage := Survey(s, rows, position, cfg);
    hide *;
    StepKeepsNumbers(s, rows, position, cfg);
    RowDecomposes(s, rows, position, cfg);
    pending, events, cells := resolved, settled, marked;
    var born: Option<Shape> := None;
    if !skip {
      born := AddNew(registry, rows, position, cfg, stage.aged);
    }
    if born.Some? {
      if rows[position].event == Some(MSS) {
        pending := Some(position);
      }
      var e := Creation(born.value, position);
      MarkOne(BLANK, events, e);
      events, cells := events + [e], Mark(cells, e);
    }
  }

  method ProcessRow(registry: OrderBlockRegistry, rows: seq<ObRow>, position: nat, cfg: Settings,
                    pending: Option<nat>, ghost s: Engine)
    returns (next: Option<nat>, events: seq<ObEvent>, cells: ObCells)
    requires position < |rows| && registry.Shows(s.blocks) && s.pending == pending && Numbered(s.blocks)
    modifies registry, registry.blocks
    ensures registry.Shows(Process(s, rows, position, cfg).blocks) && next == Process(s, rows, position, cfg).pending
    ensures old(registry.blocks) <= registry.blocks
    ensures forall i :: |old(registry.blocks)| <= i < |registry.blocks| ==> fresh(registry.blocks[i])
    ensures events == RowEvents(s, rows, position, cfg) && cells == RowCells(s, rows, position, cfg)
  {
    hide *;
    RowDecomposes(s, rows, position, cfg);
    var skip, expired;
    next, skip, expired, events, cells := UpdateExisting(registry, rows, position, cfg, pending, s);
    next, events, cells := ExtendRow(registry, rows, position, cfg, next, skip, events, cells, s);
    var bullish := registry.CountActive(Bullish, Process(s, rows, position, cfg).blocks);
    var bearish := registry.CountActive(Bearish, Process(s, rows, position, cfg).blocks);
    cells := cells.(expired := expired, activeBullish := bullish, activeBearish := bearish);
  }

  /** The whole pass; bad settings are rejected before the first row. */
  method DetectOrderBlocks(rows: seq<ObRow>, cfg: Settings)
    returns (accepted: bool, columns: seq<ObCells>, registry: OrderBlockRegistry, events: seq<ObEvent>)
    ensures accepted <==> ValidSettings(cfg)
    ensures accepted ==> |columns| == |rows| && forall i :: 0 <= i < |rows| ==> columns[i] == CellsAt(rows, cfg, i)
    ensures accepted ==> registry.Shows(EngineAt(rows, cfg, |rows|).blocks)
    ensures accepted ==> events == EventsUpTo(rows, cfg, |rows|)
  {
    hide Survey, Process, RowCells, RowEvents, Numbered, ValidSettings, OrderBlockRegistry.Shows;
    registry := new OrderBlockRegistry();
    columns, events := [], [];
    accepted := ValidSettings(cfg);
    if !accepted {
      return;
    }
    var pending: Option<nat> := None;
    for position := 0 to |rows|
      invariant fresh(registry) && forall i :: 0 <= i < |registry.blocks| ==> fresh(registry.blocks[i])
      invariant registry.Shows(EngineAt(rows, cfg, position).blocks) && pending == EngineAt(rows, cfg, position).pending
      invariant |columns| == position && forall i :: 0 <= i < position ==> columns[i] == CellsAt(rows, cfg, i)
      invariant events == EventsUpTo(rows, cfg, position)
    {
      RunsAreNumbered(rows, cfg, position);
      var emitted, cells;
      pending, emitted, cells := ProcessRow(registry, rows, position, cfg, pending, EngineAt(rows, cfg, position));
      columns, events := columns + [cells], events + emitted;
    }
  }
}
