/** When a BOS moves a protected level, read off the columns alone: the candidate
    it writes is the price of the last pullback row. */
module StaleLevels {
  import opened Domain
  import opened Structure
  import opened StructureEvents
  import opened ProtectedLevels

  /** A pullback row and the price its columns give. */
  datatype Seen = Seen(row: nat, price: Option<real>)

  /** The latest-swing column on the side that defends `d`. */
  function SwingColumn(o: OutRow, d: Direction): Option<real> { if d == Bullish then o.latestLow else o.latestHigh }

  function LevelColumns(o: OutRow, d: Direction): Guard { if d == Bullish then o.protectedLow else o.protectedHigh }

  function SeenAfter(last: Option<Seen>, o: OutRow, p: nat, d: Direction): Option<Seen> {
    if o.tag == Some(Pullback(d)) then Some(Seen(p, SwingColumn(o, d))) else last
  }

  /** The last of the first `p` rows labelled with the pullback of `d`. */
  function LastSeen(outs: seq<OutRow>, p: nat, d: Direction): Option<Seen>
    requires p <= |outs|
  {
    if p == 0 then None else SeenAfter(LastSeen(outs, p - 1, d), outs[p - 1], p - 1, d)
  }

  function PriceOf(last: Option<Seen>): Option<real> { if last.None? then None else last.value.price }

  /** What the candidate (and, during a challenge, the opposite pullback) is, given
      the last pullback rows of the two directions. */
  predicate Remembered(c: Cycle, own: Option<Seen>, other: Option<Seen>, position: nat) {
    && (own.Some? ==> own.value.row < position && own.value.price.Some?)
    && (other.Some? ==> other.value.row < position && other.value.price.Some?)
    && match c
       case Undecided => own.None? && other.None?
       case Trending(_, _, candidate, _, _) => candidate == PriceOf(own)
       case Challenged(_, _, origin, candidate, _, _, pullback) =>
         && origin < position && candidate == PriceOf(own)
         && pullback == if other.Some? && other.value.row > origin then other.value.price else None
  }

  function Side(c: Cycle): Direction { if c.Undecided? then Bullish else c.dir }

  /** The price of a pullback row stands in the column beside its label. */
  lemma {:induction false} ColumnShowsPullback(s: Snapshot, row: SwingRow, minimumBreak: real, position: nat,
                                               d: Direction)
    requires LabelOf(s.memory, row) == Some(Pullback(d))
    ensures
      var o := Written(s, row, minimumBreak, position);
      && o.tag == Some(Pullback(d)) && SwingColumn(o, d).Some?
      && SwingColumn(o, d) == LabelPrice(LabelOf(s.memory, row), row)
  {
    RememberKeepsDefence(s.memory, row, d);
  }

  /** What a row does to the candidate and the opposite pullback. */
  predicate CandidateMoves(c: Cycle, next: Cycle, tag: Option<Label>, price: Option<real>, position: nat) {
    match c
    case Undecided =>
      && (next.Undecided? ==> tag.None?)
      && (!next.Undecided? ==>
            && next.candidate == (if tag == Some(Pullback(next.dir)) then price else None)
            && tag != Some(Pullback(Opposite(next.dir)))
            && (next.Challenged? ==> next.pullback.None? && next.origin == position))
    case Trending(d, _, candidate, _, _) =>
      && !next.Undecided? && next.dir == d
      && next.candidate == (if tag == Some(Pullback(d)) then price else candidate)
      && (next.Challenged? ==> next.pullback.None? && next.origin == position)
    case Challenged(d, _, origin, candidate, _, _, pullback) =>
      && !next.Undecided?
      && (next.Challenged? ==>
            && next.dir == d && next.origin == origin
            && next.candidate == (if tag == Some(Pullback(d)) then price else candidate)
            && next.pullback == (if tag == Some(Pullback(Opposite(d))) then price else pullback))
      && (next.Trending? ==>
            && tag in {Some(HH), Some(LL)} && (next.dir != d ==> pullback.Some?)
            && next.candidate == (if next.dir == d then candidate else pullback))
  }

  lemma {:induction false} SwingsMoveCandidate(s: Snapshot, row: SwingRow, position: nat)
    ensures
      var tag := LabelOf(s.memory, row);
      CandidateMoves(s.cycle, SwingResponse(s, row).cycle, tag, LabelPrice(tag, row), position)
      && (SwingResponse(s, row).cycle.Challenged? ==> s.cycle.Challenged?)
      && (SwingResponse(s, row).event.Some? <==> s.cycle.Challenged? && SwingResponse(s, row).cycle.Trending?)
  {
    RememberKeepsDefence(s.memory, row, Bullish);
    hide LabelOf, LabelPrice, Remember, Reseed;
  }

  lemma {:induction false} CandidateRow(s: Snapshot, row: SwingRow, minimumBreak: real, position: nat)
    ensures
      var tag := LabelOf(s.memory, row);
      CandidateMoves(s.cycle, Advanced(s, row, minimumBreak, position).next.cycle, tag, LabelPrice(tag, row), position)
  {
    SwingsMoveCandidate(s, row, position);
    hide SwingResponse, LabelOf, LabelPrice, Remember;
  }

  lemma {:induction false} RememberedRow(s: Snapshot, row: SwingRow, minimumBreak: real, position: nat,
                                         own: Option<Seen>, other: Option<Seen>)
    requires Remembered(s.cycle, own, other, position)
    ensures
      var d, o := Side(s.cycle), Written(s, row, minimumBreak, position);
      var next := Advanced(s, row, minimumBreak, position).next.cycle;
      var own', other' := SeenAfter(own, o, position, d), SeenAfter(other, o, position, Opposite(d));
      if Side(next) == d then Remembered(next, own', other', position + 1)
      else Remembered(next, other', own', position + 1)
  {
    var d := Side(s.cycle);
    CandidateRow(s, row, minimumBreak, position);
    if LabelOf(s.memory, row) == Some(Pullback(d)) {
      ColumnShowsPullback(s, row, minimumBreak, position, d);
    }
    if LabelOf(s.memory, row) == Some(Pullback(Opposite(d))) {
      ColumnShowsPullback(s, row, minimumBreak, position, Opposite(d));
    }
    hide Advanced, LabelOf, LabelPrice, SwingColumn;
  }

  lemma {:induction false} NothingRemembered()
    ensures Remembered(START.cycle, None, None, 0)
  {
  }

  /** The candidate of every run is the price of the last pullback row. */
  lemma {:induction false} CandidateIsLastPullback(rows: seq<SwingRow>, minimumBreak: real, p: nat)
    requires p <= |rows|
    ensures
      var c, outs := At(rows, minimumBreak, p).cycle, Run(rows, minimumBreak);
      Remembered(c, LastSeen(outs, p, Side(c)), LastSeen(outs, p, Opposite(Side(c))), p)
  {
    hide Advanced, Written, Remembered, SeenAfter, Side;
    if p == 0 {
      NothingRemembered();
    } else {
      CandidateIsLastPullback(rows, minimumBreak, p - 1);
      var s, outs := At(rows, minimumBreak, p - 1), Run(rows, minimumBreak);
      var d := Side(s.cycle);
      RememberedRow(s, rows[p - 1], minimumBreak, p - 1, LastSeen(outs, p - 1, d), LastSeen(outs, p - 1, Opposite(d)));
      assert outs[p - 1] == Written(s, rows[p - 1], minimumBreak, p - 1);
      TwoSides(d, Side(At(rows, minimumBreak, p).cycle));
    }
  }

  lemma {:induction false} TwoSides(d: Direction, e: Direction)
    ensures e == d || (e == Opposite(d) && Opposite(e) == d)
  {
  }

  // ----- The moving BOS -----

  /** On the columns: no pullback on the row itself, a reseeded level before it, and
      a last pullback at another price. */
  predicate StaleShown(outs: seq<OutRow>, p: nat, d: Direction)
    requires p < |outs|
  {
    && p > 0 && outs[p].tag != Some(Pullback(d))
    && LevelColumns(outs[p - 1], d).source == Some(FromLatestSwing)
    && LastSeen(outs, p, d).Some? && PriceOf(LastSeen(outs, p, d)) != LevelColumns(outs[p - 1], d).level
  }

  /** What a BOS row's swings leave of its cycle. */
  lemma {:induction false} BosSwings(s: Snapshot, row: SwingRow, minimumBreak: real, position: nat, d: Direction)
    requires
      var e := Advanced(s, row, minimumBreak, position).event;
      e.Some? && e.value.kind == BOS && e.value.dir == d
    ensures
      var c, tag := SwingResponse(s, row).cycle, LabelOf(s.memory, row);
      if s.cycle.Undecided? || tag == Some(Pullback(d)) then !StaleCandidate(c)
      else
        && s.cycle.Trending? && s.cycle.dir == d && c.Trending?
        && c.anchor == s.cycle.anchor && c.candidate == s.cycle.candidate
  {
    OneRow(s, row, minimumBreak, position);
    RememberKeepsDefence(s.memory, row, d);
  }

  lemma {:induction false} BosAfterSwings(rows: seq<SwingRow>, minimumBreak: real, p: nat, d: Direction)
    requires p < |rows| && BosAt(rows, minimumBreak, p, d)
    ensures
      var before, c, tag := At(rows, minimumBreak, p).cycle, AfterSwings(rows, minimumBreak, p),
                            OutAt(rows, minimumBreak, p).tag;
      if before.Undecided? || tag == Some(Pullback(d)) then !StaleCandidate(c)
      else
        && before.Trending? && before.dir == d && c.Trending?
        && c.anchor == before.anchor && c.candidate == before.candidate
  {
    BosSwings(At(rows, minimumBreak, p), rows[p], minimumBreak, p, d);
    hide Advanced, SwingResponse, LabelOf, StaleCandidate;
  }

  /** The candidate is stale exactly when the columns show it. */
  lemma {:induction false} StaleReadsOff(rows: seq<SwingRow>, minimumBreak: real, p: nat, d: Direction)
    requires p < |rows| && BosAt(rows, minimumBreak, p, d)
    ensures StaleCandidate(AfterSwings(rows, minimumBreak, p)) <==> StaleShown(Run(rows, minimumBreak), p, d)
  {
    hide At, OutAt, AfterSwings, LabelAt;
    BosAfterSwings(rows, minimumBreak, p, d);
    CandidateIsLastPullback(rows, minimumBreak, p);
    NotFirst(rows, minimumBreak, d);
    if p > 0 {
      OutShowsCycle(rows, minimumBreak, p - 1);
    }
  }

  lemma {:induction false} NotFirst(rows: seq<SwingRow>, minimumBreak: real, d: Direction)
    requires 0 < |rows|
    ensures !BosAt(rows, minimumBreak, 0, d)
  {
  }

  lemma {:induction false} BosRowShows(rows: seq<SwingRow>, minimumBreak: real, p: nat, d: Direction)
    requires p < |rows| && BosAt(rows, minimumBreak, p, d)
    requires OutAt(rows, minimumBreak, p).tag != Some(Pullback(d))
             && OutAt(rows, minimumBreak, p).trendBefore == Some(d)
    ensures
      var before, after := At(rows, minimumBreak, p).cycle, AfterSwings(rows, minimumBreak, p);
      && before.Trending? && before.dir == d && after.Trending? && after.dir == d
      && GuardOf(after, d) == GuardOf(before, d) && after.candidate == before.candidate
      && MoveAt(rows, minimumBreak, p).next == At(rows, minimumBreak, p + 1)
  {
    BosSwings(At(rows, minimumBreak, p), rows[p], minimumBreak, p, d);
    assert OutAt(rows, minimumBreak, p).tag == LabelOf(At(rows, minimumBreak, p).memory, rows[p]);
    hide Advanced, SwingResponse, LabelOf;
  }

  /** A BOS of a running trend, on a row that is no pullback, changes the protected
      level exactly when the columns show a stale candidate, and then to its price. */
  lemma {:induction false} BosMovesShownLevel(rows: seq<SwingRow>, minimumBreak: real, p: nat, d: Direction)
    requires 0 < p < |rows| && BosAt(rows, minimumBreak, p, d)
    requires OutAt(rows, minimumBreak, p).tag != Some(Pullback(d))
             && OutAt(rows, minimumBreak, p).trendBefore == Some(d)
    ensures
      var outs := Run(rows, minimumBreak);
      && (LevelColumns(outs[p], d).level != LevelColumns(outs[p - 1], d).level <==> StaleShown(outs, p, d))
      && (StaleShown(outs, p, d) ==> LevelColumns(outs[p], d).level == PriceOf(LastSeen(outs, p, d)))
  {
    hide At, MoveAt, OutAt, AfterSwings, LastSeen, StaleShown, StaleCandidate, BosAt;
    StaleReadsOff(rows, minimumBreak, p, d);
    BosMovesOnlyStaleLevels(rows, minimumBreak, p, d);
    CandidateIsLastPullback(rows, minimumBreak, p);
    BosRowShows(rows, minimumBreak, p, d);
    OutShowsCycle(rows, minimumBreak, p);
    OutShowsCycle(rows, minimumBreak, p - 1);
  }
}
