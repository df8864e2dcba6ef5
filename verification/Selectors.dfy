/** The strategy's selectors over the event stream and the block list of a run. */
module Selectors {
  import opened Domain
  import Items
  import opened Structure
  import E = StructureEvents
  import L = StructureLog
  import Q = Liquidity
  import O = OrderBlocks
  import Provisional

  datatype MarketKind =
    | OfStructure(structure: EventKind) | OfLiquidity(liquidity: Q.LiqEventKind) | OfBlocks(block: O.ObEventKind)

  datatype MarketEvent = MarketEvent(kind: MarketKind, row: nat, dir: Option<Direction>)

  // ----- Choosing -----

  /** The first of the wanted events with the highest row. */
  function Latest(events: seq<MarketEvent>, wanted: MarketEvent -> bool): (found: Option<nat>)
    ensures found.None? <==> forall e :: e in events ==> !wanted(e)
    ensures found.Some? ==> found.value < |events| && wanted(events[found.value])
    ensures found.Some? ==> forall i :: 0 <= i < |events| && wanted(events[i]) ==>
                              events[i].row < events[found.value].row
                              || (events[i].row == events[found.value].row && found.value <= i)
  {
    if events == [] then None
    else
      var k := |events| - 1;
      var before := Latest(events[..k], wanted);
      assert events == events[..k] + [events[k]];
      if wanted(events[k]) && (before.None? || events[before.value].row < events[k].row) then Some(k) else before
  }

  predicate IsChoch(e: MarketEvent, d: Direction) { e.kind == OfStructure(CHoCH) && e.dir == Some(d) }

  predicate IsSweep(e: MarketEvent, d: Direction) { e.kind == OfLiquidity(Q.PoolSwept) && e.dir == Some(d) }

  predicate EndsCycle(e: MarketEvent) { e.kind in {OfStructure(CHoCH), OfStructure(MSSInvalidated)} }

  /** The latest CHoCH of the wanted direction, if the trend still has it. */
  function EvaluateChoch(trend: Option<Direction>, events: seq<MarketEvent>, d: Direction): (found: Option<nat>)
    ensures found.None? <==> trend != Some(d) || forall e :: e in events ==> !IsChoch(e, d)
    ensures found.Some? ==> trend == Some(d) && found.value < |events| && IsChoch(events[found.value], d)
    ensures found.Some? ==> forall e :: e in events && IsChoch(e, d) ==> e.row <= events[found.value].row
  {
    if trend != Some(d) then None else Latest(events, (e: MarketEvent) => IsChoch(e, d))
  }

  /** The row after the last cycle end before `before`. */
  function CycleStart(events: seq<MarketEvent>, before: nat): (start: nat)
    ensures start <= before
    ensures forall e :: e in events && EndsCycle(e) && e.row < before ==> e.row < start
    ensures start > 0 ==> exists e :: e in events && EndsCycle(e) && e.row == start - 1
  {
    var boundary := Latest(events, (e: MarketEvent) => EndsCycle(e) && e.row < before);
    if boundary.None? then 0 else events[boundary.value].row + 1
  }

  /** The latest sweep of the wanted direction inside the cycle of the CHoCH. */
  function EvaluateSweep(events: seq<MarketEvent>, d: Direction, before: nat): (found: Option<nat>)
    ensures found.None? <==>
              forall e :: e in events && IsSweep(e, d) && e.row <= before ==> e.row < CycleStart(events, before)
    ensures found.Some? ==> found.value < |events| && IsSweep(events[found.value], d)
                            && CycleStart(events, before) <= events[found.value].row <= before
    ensures found.Some? ==> forall e :: e in events && IsSweep(e, d) && e.row <= before ==>
            e.row <= events[found.value].row
  {
    var start := CycleStart(events, before);
    Latest(events, (e: MarketEvent) => IsSweep(e, d) && start <= e.row <= before)
  }

  /** A usable block of direction `d` created or confirmed on the CHoCH's row. */
  predicate Linked(b: O.Block, d: Direction, choch: nat) {
    && b.shape.dir == d && b.life.standing == O.Confirmed && !b.life.invalidated && !b.life.expired
    && (if b.life.confirmedIndex.Some? then b.life.confirmedIndex.value else b.shape.created) == choch
  }

  function FirstLinked(blocks: seq<O.Block>, d: Direction, choch: nat, from: nat): (found: Option<nat>)
    requires from <= |blocks|
    ensures found.None? ==> forall i :: from <= i < |blocks| ==> !Linked(blocks[i], d, choch)
    ensures found.Some? ==> from <= found.value < |blocks| && Linked(blocks[found.value], d, choch)
    ensures found.Some? ==> forall i :: from <= i < found.value ==> !Linked(blocks[i], d, choch)
    decreases |blocks| - from
  {
    if from == |blocks| then None
    else if Linked(blocks[from], d, choch) then Some(from)
    else FirstLinked(blocks, d, choch, from + 1)
  }

  method EvaluateOrderBlock(blocks: seq<O.Block>, d: Direction, choch: nat) returns (found: Option<nat>)
    ensures found == FirstLinked(blocks, d, choch, 0)
  {
    for i := 0 to |blocks|
      invariant FirstLinked(blocks, d, choch, 0) == FirstLinked(blocks, d, choch, i)
    {
      var b := blocks[i];
      if b.shape.dir != d { continue; }
      if b.life.standing != O.Confirmed { continue; }
      if b.life.invalidated || b.life.expired { continue; }
      var anchor := if b.life.confirmedIndex.Some? then b.life.confirmedIndex.value else b.shape.created;
      if anchor == choch { return Some(i); }
    }
    return None;
  }

  // ----- The streams of a run -----

  /** The structure events among `events` are exactly those of the rows. */
  predicate Reports(events: seq<MarketEvent>, outs: seq<OutRow>) {
    && (forall e :: e in events && e.kind.OfStructure? ==>
          e.row < |outs| && outs[e.row].event.Some? && e == Reported(outs[e.row], e.row))
    && forall p :: 0 <= p < |outs| && outs[p].event.Some? ==> Reported(outs[p], p) in events
  }

  function Reported(o: OutRow, p: nat): MarketEvent
    requires o.event.Some?
  {
    MarketEvent(OfStructure(o.event.value), p, o.direction)
  }

  function StructureItems(log: seq<L.LogEvent>): seq<MarketEvent> {
    seq(|log|, i requires 0 <= i < |log| => MarketEvent(OfStructure(log[i].kind), log[i].row, log[i].dir))
  }

  function LiquidityItems(events: seq<Q.LiqEvent>): seq<MarketEvent> {
    seq(|events|, i requires 0 <= i < |events| =>
      MarketEvent(OfLiquidity(events[i].kind), events[i].row, Some(events[i].dir)))
  }

  function BlockItems(events: seq<O.ObEvent>): seq<MarketEvent> {
    seq(|events|, i requires 0 <= i < |events| =>
      MarketEvent(OfBlocks(events[i].kind), events[i].row, Some(events[i].dir)))
  }

  lemma {:induction false} LogReports(outs: seq<OutRow>, n: nat)
    requires n <= |outs|
    ensures forall e :: e in StructureItems(L.Logged(outs, n)) ==>
              e.row < n && outs[e.row].event.Some? && e == Reported(outs[e.row], e.row)
    ensures forall p :: 0 <= p < n && outs[p].event.Some? ==> Reported(outs[p], p) in StructureItems(L.Logged(outs, n))
  {
    if n > 0 {
      LogReports(outs, n - 1);
      var before, after := L.Logged(outs, n - 1), L.Logged(outs, n);
      if outs[n - 1].event.Some? {
        assert StructureItems(after) == StructureItems(before) + [Reported(outs[n - 1], n - 1)];
      }
    }
  }

  /** Any arrangement of the three engines' events reports the rows. */
  lemma {:induction false} StreamsReport(events: seq<MarketEvent>, outs: seq<OutRow>,
                                         liquidity: seq<Q.LiqEvent>, blocks: seq<O.ObEvent>)
    requires multiset(events)
             == multiset(StructureItems(L.Logged(outs, |outs|)) + LiquidityItems(liquidity) + BlockItems(blocks))
    ensures Reports(events, outs)
  {
    var a, b, c := StructureItems(L.Logged(outs, |outs|)), LiquidityItems(liquidity), BlockItems(blocks);
    LogReports(outs, |outs|);
    assert forall e :: e in b || e in c ==> !e.kind.OfStructure?;
    hide StructureItems, LiquidityItems, BlockItems, L.Logged;
    Items.SameMembers(events, a + b + c);
  }

  // ----- The CHoCH -----

  /** The last CHoCH of either direction before row `p`. */
  function LastChoch(outs: seq<OutRow>, p: nat): (last: Option<nat>)
    requires p <= |outs|
    ensures last.Some? ==> last.value < p && outs[last.value].event == Some(CHoCH)
    ensures forall i :: (if last.Some? then last.value + 1 else 0) <= i < p ==> outs[i].event != Some(CHoCH)
  {
    if p == 0 then None
    else if outs[p - 1].event == Some(CHoCH) then Some(p - 1)
    else LastChoch(outs, p - 1)
  }

  lemma {:induction false} ChochTurns(rows: seq<SwingRow>, minimumBreak: real, p: nat)
    requires p < |rows|
    ensures
      var o, before, after := OutAt(rows, minimumBreak, p), At(rows, minimumBreak, p).cycle,
                              At(rows, minimumBreak, p + 1).cycle;
      if o.event == Some(CHoCH) then o.direction.Some? && TrendOf(after) == o.direction
      else TrendOf(before).Some? ==> TrendOf(after) == TrendOf(before)
  {
    E.OneRow(At(rows, minimumBreak, p), rows[p], minimumBreak, p);
    hide Advanced;
  }

  /** Only a CHoCH turns a trend, so the trend is the last CHoCH's direction. */
  lemma {:induction false} TrendIsLastChochs(rows: seq<SwingRow>, minimumBreak: real, p: nat)
    requires p <= |rows|
    ensures
      var outs := Run(rows, minimumBreak);
      var last := LastChoch(outs, p);
      last.Some? ==>
        && outs[last.value].direction.Some?
        && TrendOf(At(rows, minimumBreak, p).cycle) == outs[last.value].direction
  {
    hide At, OutAt;
    if p > 0 {
      TrendIsLastChochs(rows, minimumBreak, p - 1);
      ChochTurns(rows, minimumBreak, p - 1);
    }
  }

  /** A CHoCH is returned exactly when the last CHoCH of either direction has the
      wanted direction, and then it is that one. */
  lemma {:induction false} ChochIsCurrent(events: seq<MarketEvent>, rows: seq<SwingRow>, minimumBreak: real,
                                        d: Direction)
    requires Reports(events, Run(rows, minimumBreak))
    ensures
      var outs := Run(rows, minimumBreak);
      var found := EvaluateChoch(TrendOf(At(rows, minimumBreak, |rows|).cycle), events, d);
      var last := LastChoch(outs, |outs|);
      && (found.Some? <==> last.Some? && outs[last.value].direction == Some(d))
      && (found.Some? ==> events[found.value].row == last.value)
  {
    TrendIsLastChochs(rows, minimumBreak, |rows|);
    hide At, OutAt;
    ChochAgrees(TrendOf(At(rows, minimumBreak, |rows|).cycle), events, Run(rows, minimumBreak), d);
  }

  lemma {:induction false} ChochAgrees(trend: Option<Direction>, events: seq<MarketEvent>, outs: seq<OutRow>,
                                       d: Direction)
    requires Reports(events, outs)
    requires LastChoch(outs, |outs|).Some? ==>
               trend == outs[LastChoch(outs, |outs|).value].direction && trend.Some?
    ensures
      var found, last := EvaluateChoch(trend, events, d), LastChoch(outs, |outs|);
      && (found.Some? <==> last.Some? && outs[last.value].direction == Some(d))
      && (found.Some? ==> events[found.value].row == last.value)
  {
    var last := LastChoch(outs, |outs|);
    if last.Some? {
      assert Reported(outs[last.value], last.value) in events;
    }
  }

  // ----- The sweep window -----

  /** An MSS of direction `d` at `m` and one of its pullbacks at `h`, before `r`. */
  predicate Matures(rows: seq<SwingRow>, minimumBreak: real, m: nat, h: nat, r: nat, d: Direction)
    requires r < |rows|
  {
    m < h < r && E.ShiftAt(rows, minimumBreak, m, d) && E.LabelAt(rows, minimumBreak, h) == Some(Pullback(d))
  }

  /** A CHoCH resolves an MSS of its direction, after one of its pullbacks and with
      nothing emitted in between. */
  lemma {:induction false} ShiftOfChoch(rows: seq<SwingRow>, minimumBreak: real, r: nat, d: Direction)
    returns (m: nat, h: nat)
    requires r < |rows|
    requires OutAt(rows, minimumBreak, r).event == Some(CHoCH) && OutAt(rows, minimumBreak, r).direction == Some(d)
    ensures Matures(rows, minimumBreak, m, h, r, d)
    ensures OutAt(rows, minimumBreak, m).event == Some(MSS)
    ensures forall i :: m < i < r ==> OutAt(rows, minimumBreak, i).event.None?
  {
    var s := At(rows, minimumBreak, r);
    E.OneRow(s, rows[r], minimumBreak, r);
    E.ChallengedRow(s, rows[r], minimumBreak, r);
    E.ChallengeHasOrigin(rows, minimumBreak, r);
    L.PendingIsQuiet(rows, minimumBreak, r);
    m := s.cycle.origin;
    assert E.PullbackBetween(rows, minimumBreak, m, r, d);
    h :| m < h < r && E.LabelAt(rows, minimumBreak, h) == Some(Pullback(d));
    assert OutAt(rows, minimumBreak, m).event == Some(MSS);
    hide Advanced, LabelOf;
  }

  lemma {:induction false} WindowReachesBack(events: seq<MarketEvent>, outs: seq<OutRow>, m: nat, r: nat)
    requires m < r < |outs| && Reports(events, outs)
    requires outs[m].event == Some(MSS) && forall i :: m < i < r ==> outs[i].event.None?
    ensures CycleStart(events, r) <= m
    ensures forall i :: CycleStart(events, r) <= i < r ==> outs[i].event !in {Some(CHoCH), Some(MSSInvalidated)}
  {
    var start := CycleStart(events, r);
    forall i | start <= i < r ensures outs[i].event !in {Some(CHoCH), Some(MSSInvalidated)} {
      assert outs[i].event.Some? ==> Reported(outs[i], i) in events;
    }
    if start > 0 {
      var e :| e in events && EndsCycle(e) && e.row == start - 1;
      assert outs[e.row].event == Some(e.kind.structure);
    }
  }

  /** The window of a CHoCH reaches back past the confirming pullback and the MSS
      it resolves, and no cycle ends inside it. */
  lemma {:induction false} WindowHoldsTheShift(events: seq<MarketEvent>, rows: seq<SwingRow>, minimumBreak: real,
                                        r: nat, d: Direction)
    returns (m: nat, h: nat)
    requires r < |rows| && Reports(events, Run(rows, minimumBreak))
    requires OutAt(rows, minimumBreak, r).event == Some(CHoCH) && OutAt(rows, minimumBreak, r).direction == Some(d)
    ensures CycleStart(events, r) <= m && Matures(rows, minimumBreak, m, h, r, d)
    ensures forall i :: CycleStart(events, r) <= i < r ==>
              Run(rows, minimumBreak)[i].event !in {Some(CHoCH), Some(MSSInvalidated)}
  {
    m, h := ShiftOfChoch(rows, minimumBreak, r, d);
    hide OutAt, E.ShiftAt, E.LabelAt, Reports, CycleStart;
    WindowReachesBack(events, Run(rows, minimumBreak), m, r);
  }

  // ----- The block -----

  /** A block linked to a CHoCH was created by it, or by the MSS it resolved. */
  lemma {:induction false} LinkedBlockIsOfTheChoch(rows: seq<SwingRow>, minimumBreak: real, ob: seq<O.ObRow>,
                                        cfg: O.Settings,
                                i: nat, r: nat, d: Direction)
    requires Provisional.Follows(ob, rows, minimumBreak) && r < |rows|
    requires OutAt(rows, minimumBreak, r).event == Some(CHoCH) && OutAt(rows, minimumBreak, r).direction == Some(d)
    requires i < |O.EngineAt(ob, cfg, |ob|).blocks| && Linked(O.EngineAt(ob, cfg, |ob|).blocks[i], d, r)
    ensures
      var s := O.EngineAt(ob, cfg, |ob|).blocks[i].shape;
      || s.source == O.SourceId(CHoCH, r)
      || (s.source.kind == MSS && s.source.row < r && Provisional.ConfirmedAt(rows, minimumBreak, s.source.row, r, d))
  {
    Provisional.RunsAreCoupled(rows, minimumBreak, ob, cfg, |rows|);
    var b, c := O.EngineAt(ob, cfg, |ob|).blocks[i], At(rows, minimumBreak, |rows|).cycle;
    assert Provisional.Settled(b, c, rows, minimumBreak, |rows|);
    hide O.EngineAt, At, OutAt;
  }

  /** A CHoCH resolves one MSS: the last event before it. */
  lemma {:induction false} ResolvedShiftIsUnique(rows: seq<SwingRow>, minimumBreak: real, k: nat, m: nat, r: nat,
                                        d: Direction)
    requires m < r < |rows| && Provisional.ConfirmedAt(rows, minimumBreak, k, r, d)
    requires OutAt(rows, minimumBreak, m).event == Some(MSS)
    requires forall i :: m < i < r ==> OutAt(rows, minimumBreak, i).event.None?
    ensures k == m
  {
    if k < m {
      assert E.Unresolved(rows, minimumBreak, k, m, d);
      E.ShiftStaysPending(rows, minimumBreak, k, m, d);
      E.OneRow(At(rows, minimumBreak, m), rows[m], minimumBreak, m);
    } else {
      assert OutAt(rows, minimumBreak, k).event == Some(MSS);
    }
    hide Advanced, LabelOf;
  }
}
