/** What a run keeps true of the protected levels, and what a BOS does to them. */
module ProtectedLevels {
  import opened Domain
  import opened Structure
  import opened StructureEvents
  import opened Swings

  predicate Whole(g: Guard) {
    (g.level.Some? <==> g.status.Some?) && (g.level.Some? <==> g.source.Some?)
  }

  predicate MssState(s: StructureState) { s == MssBullish || s == MssBearish }

  /** The guard a pending MSS has broken. */
  function BrokenGuard(o: OutRow): Guard {
    if o.state == MssBullish then o.protectedHigh else o.protectedLow
  }

  /** Only the side that defends the trend is protected; value, status and source
      come and go together; a level is broken exactly while an MSS is pending. */
  lemma {:induction false} LevelsFollowTrend(rows: seq<SwingRow>, minimumBreak: real, p: nat)
    requires p < |rows|
    ensures
      var o := OutAt(rows, minimumBreak, p);
      && Whole(o.protectedHigh) && Whole(o.protectedLow)
      && (o.trend != Some(Bearish) ==> o.protectedHigh == NO_GUARD)
      && (o.trend != Some(Bullish) ==> o.protectedLow == NO_GUARD)
      && (o.protectedHigh.status == Some(Broken) <==> o.state == MssBullish)
      && (o.protectedLow.status == Some(Broken) <==> o.state == MssBearish)
      && (MssState(o.state) <==> o.originLevel.Some?) && (o.originLevel.Some? <==> o.originIndex.Some?)
  {
    var next := Advanced(At(rows, minimumBreak, p), rows[p], minimumBreak, p).next;
    assert OutAt(rows, minimumBreak, p).trend == TrendOf(next.cycle);
  }

  /** `shift`, the row of the pending MSS at `m`, and a row `later` since agree with
      the pending row `now`. */
  predicate Unmoved(shift: OutRow, m: nat, later: OutRow, now: OutRow) {
    && shift.event == Some(MSS) && shift.brokenLevel == now.originLevel
    && later.originIndex == Some(m) && later.originLevel == now.originLevel
    && BrokenGuard(later).level == now.originLevel && later.state == now.state
  }

  /** While an MSS is pending, the broken level is the one its own row broke and
      has not moved since. */
  lemma {:induction false} BrokenLevelIsOrigin(rows: seq<SwingRow>, minimumBreak: real, p: nat, m: nat, i: nat)
    requires m <= i <= p < |rows|
    requires MssState(OutAt(rows, minimumBreak, p).state) && OutAt(rows, minimumBreak, p).originIndex == Some(m)
    ensures Unmoved(OutAt(rows, minimumBreak, m), m, OutAt(rows, minimumBreak, i), OutAt(rows, minimumBreak, p))
  {
    hide OutAt, At, MoveAt, Withdraws, Confirms, PullbackBetween;
    OutShowsCycle(rows, minimumBreak, p);
    OutShowsCycle(rows, minimumBreak, i);
    var c := At(rows, minimumBreak, p + 1).cycle;
    var e := Opposite(c.dir);
    ChallengeHasOrigin(rows, minimumBreak, p + 1);
    ShiftShows(rows, minimumBreak, m, e);
    assert Unresolved(rows, minimumBreak, m, i + 1, e);
    ShiftStaysPending(rows, minimumBreak, m, i + 1, e);
  }

  /** How a row's cells show the cycle it leaves. */
  lemma {:induction false} OutShowsCycle(rows: seq<SwingRow>, minimumBreak: real, p: nat)
    requires p < |rows|
    ensures
      var o, c := OutAt(rows, minimumBreak, p), At(rows, minimumBreak, p + 1).cycle;
      && o.state == StateOf(c) && o.trend == TrendOf(c)
      && o.protectedHigh == GuardOf(c, Bearish) && o.protectedLow == GuardOf(c, Bullish)
      && o.originLevel == (if c.Challenged? then Some(c.level.price) else None)
      && o.originIndex == (if c.Challenged? then Some(c.origin) else None)
  {
    assert MoveAt(rows, minimumBreak, p).next == At(rows, minimumBreak, p + 1);
    hide Advanced;
  }

  lemma {:induction false} ShiftShows(rows: seq<SwingRow>, minimumBreak: real, m: nat, e: Direction)
    requires m < |rows| && ShiftAt(rows, minimumBreak, m, e)
    ensures OutAt(rows, minimumBreak, m).event == Some(MSS)
    ensures OutAt(rows, minimumBreak, m).brokenLevel == Some(MoveAt(rows, minimumBreak, m).event.value.level)
  {
    hide Advanced;
  }

  /** Resolving an MSS never leaves the trend unprotected: an invalidation reseeds
      from the latest detected swing, a CHoCH promotes a pullback. */
  lemma {:induction false} ResolutionProtects(rows: seq<SwingRow>, minimumBreak: real, p: nat)
    requires p < |rows|
    ensures
      var o := OutAt(rows, minimumBreak, p);
      var before := At(rows, minimumBreak, p);
      && (o.event == Some(MSSInvalidated) ==>
            && o.trendAfter == o.direction == o.trendBefore && o.direction.Some?
            && GuardOf(MoveAt(rows, minimumBreak, p).next.cycle, o.direction.value)
               == Guard(Defence(Remember(before.memory, rows[p]), o.direction.value), Some(Active),
                        Some(FromLatestSwing))
            && Defence(Remember(before.memory, rows[p]), o.direction.value).Some?)
      && (o.event == Some(CHoCH) ==>
            && o.trendAfter == o.direction && o.direction.Some? && before.cycle.Challenged?
            && before.cycle.pullback.Some?
            && GuardOf(MoveAt(rows, minimumBreak, p).next.cycle, o.direction.value)
               == Guard(before.cycle.pullback, Some(Active), Some(PullbackSource(o.direction.value))))
  {
    RunsAreSound(rows, minimumBreak, p);
    var s := At(rows, minimumBreak, p);
    OneRow(s, rows[p], minimumBreak, p);
    RememberKeepsDefence(s.memory, rows[p], Bullish);
    RememberKeepsDefence(s.memory, rows[p], Bearish);
    if s.cycle.Challenged? {
      ChallengedRow(s, rows[p], minimumBreak, p);
    }
  }

  // ----- BOS -----

  /** The cycle after the swings of row `p`, before its close is read. */
  function AfterSwings(rows: seq<SwingRow>, minimumBreak: real, p: nat): Cycle
    requires p < |rows|
  {
    SwingResponse(At(rows, minimumBreak, p), rows[p]).cycle
  }

  predicate BosAt(rows: seq<SwingRow>, minimumBreak: real, p: nat, d: Direction)
    requires p < |rows|
  {
    OutAt(rows, minimumBreak, p).event == Some(BOS) && OutAt(rows, minimumBreak, p).direction == Some(d)
  }

  /** A candidate left over from before an invalidated MSS. */
  predicate StaleCandidate(c: Cycle) {
    && c.Trending? && c.anchor.Some? && c.candidate.Some?
    && c.anchor.value.source == FromLatestSwing && c.candidate != Some(c.anchor.value.price)
  }

  /** A BOS keeps status and source, and moves the level exactly when the
      candidate is stale. */
  lemma {:induction false} BosMovesOnlyStaleLevels(rows: seq<SwingRow>, minimumBreak: real, p: nat, d: Direction)
    requires p < |rows| && BosAt(rows, minimumBreak, p, d)
    ensures
      var before, after := AfterSwings(rows, minimumBreak, p), MoveAt(rows, minimumBreak, p).next.cycle;
      && before.Trending? && before.dir == d && after.Trending? && after.dir == d
      && GuardOf(after, d).status == GuardOf(before, d).status
      && GuardOf(after, d).source == GuardOf(before, d).source
      && (GuardOf(after, d).level != GuardOf(before, d).level <==> StaleCandidate(before))
      && (StaleCandidate(before) ==> GuardOf(after, d).level == before.candidate)
  {
    RunsAreSound(rows, minimumBreak, p);
    var s := At(rows, minimumBreak, p);
    RespondKeepsSound(s, rows[p], p);
    OneRow(s, rows[p], minimumBreak, p);
  }

  /** An invalidated MSS at `i`, and no pullback of direction `d` since. */
  predicate InvalidatedSince(rows: seq<SwingRow>, minimumBreak: real, i: nat, p: nat, d: Direction)
    requires i < p <= |rows|
  {
    && OutAt(rows, minimumBreak, i).event == Some(MSSInvalidated)
    && OutAt(rows, minimumBreak, i).direction == Some(d)
    && forall k :: i < k < p ==> LabelAt(rows, minimumBreak, k) != Some(Pullback(d))
  }

  predicate LatestAnchored(c: Cycle) {
    c.Trending? && c.anchor.Some? && c.anchor.value.source == FromLatestSwing && c.candidate.Some?
  }

  lemma {:induction false} UnanchoredRow(s: Snapshot, row: SwingRow, minimumBreak: real, position: nat)
    requires Sound(s, position)
    ensures
      var move := Advanced(s, row, minimumBreak, position);
      var c := move.next.cycle;
      LatestAnchored(c) ==>
        || (move.event.Some? && move.event.value.kind == MSSInvalidated && move.event.value.dir == c.dir)
        || (LatestAnchored(s.cycle) && s.cycle.dir == c.dir && LabelOf(s.memory, row) != Some(Pullback(c.dir)))
  {
    OneRow(s, row, minimumBreak, position);
    RespondKeepsSound(s, row, position);
    RememberKeepsDefence(s.memory, row, Bullish);
    RememberKeepsDefence(s.memory, row, Bearish);
    if s.cycle.Challenged? {
      ChallengedRow(s, row, minimumBreak, position);
    }
  }

  lemma {:induction false} UnanchoredLater(rows: seq<SwingRow>, minimumBreak: real, p: nat)
    requires 0 < p <= |rows|
    requires LatestAnchored(At(rows, minimumBreak, p).cycle)
    ensures LatestAnchored(At(rows, minimumBreak, p).cycle) && !At(rows, minimumBreak, p).cycle.Undecided?
    ensures
      var d := At(rows, minimumBreak, p).cycle.dir;
      || InvalidatedSince(rows, minimumBreak, p - 1, p, d)
      || (&& LatestAnchored(At(rows, minimumBreak, p - 1).cycle) && At(rows, minimumBreak, p - 1).cycle.dir == d
          && LabelAt(rows, minimumBreak, p - 1) != Some(Pullback(d)))
  {
    hide Sound, Advanced;
    RunsAreSound(rows, minimumBreak, p - 1);
    UnanchoredRow(At(rows, minimumBreak, p - 1), rows[p - 1], minimumBreak, p - 1);
  }

  lemma {:induction false} InvalidationAges(rows: seq<SwingRow>, minimumBreak: real, i: nat, p: nat, d: Direction)
    requires i < p < |rows| && InvalidatedSince(rows, minimumBreak, i, p, d)
    requires LabelAt(rows, minimumBreak, p) != Some(Pullback(d))
    ensures InvalidatedSince(rows, minimumBreak, i, p + 1, d)
  {
    hide OutAt, LabelAt;
  }

  lemma {:induction false} StartIsUnanchored(rows: seq<SwingRow>, minimumBreak: real)
    ensures !LatestAnchored(At(rows, minimumBreak, 0).cycle)
  {
  }

  /** Stale candidates exist only between an MSS_INVALIDATED and the next pullback. */
  lemma {:induction false} StaleOnlyAfterInvalidation(rows: seq<SwingRow>, minimumBreak: real, p: nat) returns (i: nat)
    requires p <= |rows|
    requires LatestAnchored(At(rows, minimumBreak, p).cycle)
    ensures i < p && InvalidatedSince(rows, minimumBreak, i, p, At(rows, minimumBreak, p).cycle.dir)
  {
    hide At, OutAt, LabelAt, LatestAnchored, InvalidatedSince;
    StartIsUnanchored(rows, minimumBreak);
    UnanchoredLater(rows, minimumBreak, p);
    if InvalidatedSince(rows, minimumBreak, p - 1, p, At(rows, minimumBreak, p).cycle.dir) {
      i := p - 1;
    } else {
      i := StaleOnlyAfterInvalidation(rows, minimumBreak, p - 1);
      InvalidationAges(rows, minimumBreak, i, p - 1, At(rows, minimumBreak, p).cycle.dir);
    }
  }

  /** A stale candidate after the row's swings was there before them. */
  lemma {:induction false} StaleBefore(s: Snapshot, row: SwingRow, minimumBreak: real, position: nat, d: Direction)
    requires Sound(s, position)
    requires
      var e := Advanced(s, row, minimumBreak, position).event;
      e.Some? && e.value.kind == BOS && e.value.dir == d
    requires StaleCandidate(SwingResponse(s, row).cycle)
    ensures LatestAnchored(s.cycle) && s.cycle.dir == d && LabelOf(s.memory, row) != Some(Pullback(d))
  {
    OneRow(s, row, minimumBreak, position);
    RememberKeepsDefence(s.memory, row, Bullish);
  }

  /** So a BOS that moves the protected level follows an invalidated MSS, with no
      pullback of its direction in between or on its own row. */
  lemma {:induction false} BosRewriteFollowsInvalidation(rows: seq<SwingRow>, minimumBreak: real, p: nat,
                                        d: Direction) returns (i: nat)
    requires p < |rows| && BosAt(rows, minimumBreak, p, d) && StaleCandidate(AfterSwings(rows, minimumBreak, p))
    ensures i < p && InvalidatedSince(rows, minimumBreak, i, p + 1, d)
  {
    BosMovesOnlyStaleLevels(rows, minimumBreak, p, d);
    RunsAreSound(rows, minimumBreak, p);
    StaleBefore(At(rows, minimumBreak, p), rows[p], minimumBreak, p, d);
    hide Advanced, SwingResponse, Sound, LabelOf, StaleCandidate;
    i := StaleOnlyAfterInvalidation(rows, minimumBreak, p);
  }

  /** Every way a protected level's value can change on one row. */
  lemma {:induction false} LevelChangesAreListed(rows: seq<SwingRow>, minimumBreak: real, p: nat, d: Direction)
    requires p < |rows|
    requires GuardOf(At(rows, minimumBreak, p).cycle, d).level
             != GuardOf(MoveAt(rows, minimumBreak, p).next.cycle, d).level
    ensures
      var o := OutAt(rows, minimumBreak, p);
      || (o.trendBefore == None && o.trendAfter == Some(d))
      || (o.tag == Some(Pullback(d)) && o.trendBefore == Some(d))
      || (o.event == Some(MSSInvalidated) && o.direction == Some(d))
      || o.event == Some(CHoCH)
      || (BosAt(rows, minimumBreak, p, d) && StaleCandidate(AfterSwings(rows, minimumBreak, p)))
  {
    var s := At(rows, minimumBreak, p);
    OneRow(s, rows[p], minimumBreak, p);
    if s.cycle.Challenged? {
      ChallengedRow(s, rows[p], minimumBreak, p);
    } else if BosAt(rows, minimumBreak, p, d) {
      BosMovesOnlyStaleLevels(rows, minimumBreak, p, d);
    }
  }

  // ----- The rewrite happens -----

  function Bar(time: int, high: real, low: real, close: real): Candle {
    Candle(time, close, high, low, close, Some(1.0))
  }

  /** Ten candles. With a window of one candle on each side rows 1, 3 and 7 are
      swing highs and rows 2, 4 and 6 swing lows. */
  const REWRITE := [
    Bar(0, 8.0, 7.0, 7.5), Bar(1, 10.0, 9.0, 9.5), Bar(2, 8.0, 5.0, 7.0), Bar(3, 12.0, 10.0, 11.0),
    Bar(4, 9.0, 6.0, 8.0), Bar(5, 9.0, 7.0, 8.0), Bar(6, 8.0, 3.0, 4.0), Bar(7, 13.0, 9.0, 12.0),
    Bar(8, 12.5, 9.0, 12.0), Bar(9, 15.0, 11.0, 14.0)]

  function RewriteRow(p: nat): SwingRow
    requires p < 10
  {
    Flagged(REWRITE[p], p == 1 || p == 3 || p == 7, p == 2 || p == 4 || p == 6)
  }

  lemma {:induction false} RewriteSwings(p: nat)
    requires p < 10
    ensures SwingRowAt(REWRITE, 1, 1, p) == RewriteRow(p)
  {
    if 1 <= p < 9 {
      Peak(REWRITE, p);
      NoPeak(REWRITE, p, p - 1);
      NoPeak(REWRITE, p, p + 1);
      hide IsSwingHigh, IsSwingLow;
    }
  }

  function RewriteRows(): (rows: seq<SwingRow>)
    ensures |rows| == 10
  {
    SwingRows(REWRITE, 1, 1)
  }

  lemma {:induction false} RewriteStep(p: nat, s: Snapshot)
    requires p < 10 && At(RewriteRows(), 0.1, p) == s
    ensures At(RewriteRows(), 0.1, p + 1) == Advanced(s, RewriteRow(p), 0.1, p).next
  {
    hide Advanced, SwingRowAt;
    RewriteSwings(p);
  }

  const BEFORE_SHIFT := Snapshot(
    Trending(Bullish, Some(Level(6.0, FromHL)), Some(6.0), Some(12.0), None),
    Memory(Some(12.0), Some(6.0), Some(12.0), Some(6.0), Some(12.0), Some(6.0)))

  const SHIFTED := Snapshot(
    Challenged(Bullish, Level(6.0, FromHL), 6, Some(6.0), Some(12.0), None, None),
    Memory(Some(12.0), Some(3.0), Some(12.0), Some(3.0), Some(12.0), Some(3.0)))

  const BEFORE_BOS := Snapshot(
    Trending(Bullish, Some(Level(3.0, FromLatestSwing)), Some(6.0), Some(13.0), None),
    Memory(Some(13.0), Some(3.0), Some(13.0), Some(3.0), Some(13.0), Some(3.0)))

  lemma {:induction false} RewriteOpens()
    ensures At(RewriteRows(), 0.1, 3)
            == Snapshot(Undecided, Memory(Some(10.0), Some(5.0), Some(10.0), Some(5.0), None, None))
  {
    hide At, RewriteRows;
    StartOf(RewriteRows());
    RewriteStep(0, START);
    RewriteStep(1, START);
    RewriteStep(2, Snapshot(Undecided, Memory(Some(10.0), None, Some(10.0), None, None, None)));
  }

  lemma {:induction false} StartOf(rows: seq<SwingRow>)
    ensures At(rows, 0.1, 0) == START
  {
  }

  lemma {:induction false} RewriteTrends()
    ensures At(RewriteRows(), 0.1, 6) == BEFORE_SHIFT
  {
    hide At, RewriteRows;
    RewriteOpens();
    RewriteStep(3, Snapshot(Undecided, Memory(Some(10.0), Some(5.0), Some(10.0), Some(5.0), None, None)));
    RewriteStep(4, Snapshot(
        Trending(Bullish, Some(Level(5.0, FromLatestSwing)), None, Some(12.0), None),
        Memory(Some(12.0), Some(5.0), Some(12.0), Some(5.0), Some(12.0), None)));
    RewriteStep(5, BEFORE_SHIFT);
  }

  lemma {:induction false} RewriteReseeds()
    ensures At(RewriteRows(), 0.1, 9) == BEFORE_BOS
  {
    hide At, RewriteRows;
    RewriteTrends();
    RewriteStep(6, BEFORE_SHIFT);
    RewriteStep(7, SHIFTED);
    RewriteStep(8, BEFORE_BOS);
  }

  lemma {:induction false} LastRowIsBos()
    ensures
      var move := Advanced(BEFORE_BOS, RewriteRow(9), 0.1, 9);
      && move.event.Some? && move.event.value.kind == BOS
      && GuardOf(move.next.cycle, Bullish) == Guard(Some(6.0), Some(Active), Some(FromLatestSwing))
  {
  }

  /** On these well-formed candles the last BOS lifts the protected low from 3 to a
      candidate recorded before the invalidated MSS, and still calls it a latest
      swing. */
  lemma {:induction false} BosRewritesALevel()
    ensures forall c :: c in REWRITE ==> c.low <= c.open <= c.high && c.low <= c.close <= c.high
    ensures
      var rows := SwingRows(REWRITE, 1, 1);
      && |rows| == 10 && OutAt(rows, 0.1, 9).event == Some(BOS)
      && OutAt(rows, 0.1, 8).protectedLow == Guard(Some(3.0), Some(Active), Some(FromLatestSwing))
      && OutAt(rows, 0.1, 9).protectedLow == Guard(Some(6.0), Some(Active), Some(FromLatestSwing))
  {
    hide At, Advanced, SwingRowAt;
    RewriteReseeds();
    OutShowsCycle(RewriteRows(), 0.1, 8);
    RewriteSwings(9);
    LastRowIsBos();
  }
}
