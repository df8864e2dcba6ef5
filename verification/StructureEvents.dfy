/** The order in which a run can emit structure events, and the row at which a
    market structure shift resolves. */
module StructureEvents {
  import opened Domain
  import opened Structure

  // ----- One row -----

  ghost predicate Quiet(c: Cycle, move: Move) {
    && move.event.None?
    && (c.Trending? ==> move.next.cycle.Trending? && move.next.cycle.dir == c.dir)
    && (c.Challenged? ==> move.next.cycle.Challenged? && move.next.cycle.dir == c.dir)
    && (c.Undecided? ==> !move.next.cycle.Challenged?)
  }

  ghost predicate Continues(c: Cycle, move: Move) {
    && move.event.Some? && move.event.value.kind == BOS
    && !c.Challenged? && (c.Trending? ==> c.dir == move.event.value.dir)
    && move.next.cycle.Trending? && move.next.cycle.dir == move.event.value.dir
  }

  ghost predicate Shifts(c: Cycle, move: Move) {
    && move.event.Some? && move.event.value.kind == MSS
    && !c.Challenged? && (c.Trending? ==> c.dir == Opposite(move.event.value.dir))
    && move.next.cycle.Challenged? && move.next.cycle.dir == Opposite(move.event.value.dir)
  }

  ghost predicate Reverses(c: Cycle, move: Move) {
    && move.event.Some? && move.event.value.kind == CHoCH
    && c.Challenged? && move.event.value.dir == Opposite(c.dir)
    && move.next.cycle.Trending? && move.next.cycle.dir == Opposite(c.dir)
  }

  ghost predicate Reasserts(c: Cycle, move: Move) {
    && move.event.Some? && move.event.value.kind == MSSInvalidated
    && c.Challenged? && move.event.value.dir == c.dir
    && move.next.cycle.Trending? && move.next.cycle.dir == c.dir
  }

  lemma {:induction false} OneRow(s: Snapshot, row: SwingRow, minimumBreak: real, position: nat)
    ensures
      var move := Advanced(s, row, minimumBreak, position);
      || Quiet(s.cycle, move) || Continues(s.cycle, move) || Shifts(s.cycle, move)
      || Reverses(s.cycle, move) || Reasserts(s.cycle, move)
  {
    var tag := LabelOf(s.memory, row);
    var memory := Remember(s.memory, row);
    var swing := Respond(s.cycle, memory, tag, LabelPrice(tag, row));
    if s.cycle.Challenged? && swing.event.None? {
      assert swing.cycle.Challenged? && swing.cycle.dir == s.cycle.dir;
    }
  }

  // ----- The language of a run -----

  datatype Occurrence = Occurrence(kind: EventKind, dir: Direction, row: nat)

  /** The events of rows `p` and later, in row order. */
  function Occurrences(rows: seq<SwingRow>, minimumBreak: real, p: nat): seq<Occurrence>
    requires p <= |rows|
    decreases |rows| - p
  {
    if p == |rows| then []
    else
      EventOf(MoveAt(rows, minimumBreak, p), p) + Occurrences(rows, minimumBreak, p + 1)
  }

  predicate Agrees(trend: Option<Direction>, d: Direction) {
    trend.None? || trend.value == d
  }

  /** (BOS | MSS (CHoCH | MSS_INVALIDATED))* MSS?, with the direction each event
      must carry under the running trend. */
  predicate Sentence(trend: Option<Direction>, s: seq<Occurrence>)
    decreases |s|
  {
    s == [] ||
    match s[0].kind
    case BOS => Agrees(trend, s[0].dir) && Sentence(Some(s[0].dir), s[1..])
    case MSS => Agrees(trend, Opposite(s[0].dir)) && Resolution(Opposite(s[0].dir), s[1..])
    case _ => false
  }

  /** What may follow an MSS against direction `d`. */
  predicate Resolution(d: Direction, s: seq<Occurrence>)
    decreases |s|
  {
    s == [] ||
    match s[0].kind
    case CHoCH => s[0].dir == Opposite(d) && Sentence(Some(Opposite(d)), s[1..])
    case MSSInvalidated => s[0].dir == d && Sentence(Some(d), s[1..])
    case _ => false
  }

  predicate Reads(c: Cycle, s: seq<Occurrence>) {
    match c
    case Undecided => Sentence(None, s)
    case Trending(d, _, _, _, _) => Sentence(Some(d), s)
    case Challenged(d, _, _, _, _, _, _) => Resolution(d, s)
  }

  function EventOf(move: Move, p: nat): seq<Occurrence> {
    if move.event.Some? then [Occurrence(move.event.value.kind, move.event.value.dir, p)] else []
  }

  lemma {:induction false} ReadsOneMore(c: Cycle, move: Move, p: nat, rest: seq<Occurrence>)
    requires Quiet(c, move) || Continues(c, move) || Shifts(c, move) || Reverses(c, move) || Reasserts(c, move)
    requires Reads(move.next.cycle, rest)
    ensures Reads(c, EventOf(move, p) + rest)
  {
    var all := EventOf(move, p) + rest;
    if move.event.None? {
      assert all == rest;
    } else {
      assert all[0] == Occurrence(move.event.value.kind, move.event.value.dir, p) && all[1..] == rest;
    }
  }

  lemma {:induction false} RestReads(rows: seq<SwingRow>, minimumBreak: real, p: nat)
    requires p <= |rows|
    ensures Reads(At(rows, minimumBreak, p).cycle, Occurrences(rows, minimumBreak, p))
    decreases |rows| - p
  {
    if p < |rows| {
      RestReads(rows, minimumBreak, p + 1);
      OneRow(At(rows, minimumBreak, p), rows[p], minimumBreak, p);
      ReadsOneMore(At(rows, minimumBreak, p).cycle, MoveAt(rows, minimumBreak, p), p,
                   Occurrences(rows, minimumBreak, p + 1));
    }
  }

  /** Every run speaks the language, whatever the candles. */
  lemma {:induction false} RunsAreSentences(rows: seq<SwingRow>, minimumBreak: real)
    ensures Sentence(None, Occurrences(rows, minimumBreak, 0))
  {
    RestReads(rows, minimumBreak, 0);
  }

  // ----- Where a shift resolves -----

  function LabelAt(rows: seq<SwingRow>, minimumBreak: real, p: nat): Option<Label>
    requires p < |rows|
  {
    LabelOf(At(rows, minimumBreak, p).memory, rows[p])
  }

  predicate ShiftAt(rows: seq<SwingRow>, minimumBreak: real, m: nat, e: Direction)
    requires m < |rows|
  {
    var event := MoveAt(rows, minimumBreak, m).event;
    event.Some? && event.value.kind == MSS && event.value.dir == e
  }

  /** A pullback of the shift's own direction strictly between `m` and `r`. */
  predicate PullbackBetween(rows: seq<SwingRow>, minimumBreak: real, m: nat, r: nat, e: Direction)
    requires r <= |rows|
  {
    exists h :: m < h < r && LabelAt(rows, minimumBreak, h) == Some(Pullback(e))
  }

  predicate Withdraws(rows: seq<SwingRow>, minimumBreak: real, r: nat, e: Direction)
    requires r < |rows|
  {
    LabelAt(rows, minimumBreak, r) == Some(Impulse(Opposite(e)))
  }

  predicate Confirms(rows: seq<SwingRow>, minimumBreak: real, m: nat, r: nat, e: Direction)
    requires r < |rows|
  {
    LabelAt(rows, minimumBreak, r) == Some(Impulse(e)) && PullbackBetween(rows, minimumBreak, m, r, e)
  }

  predicate Unresolved(rows: seq<SwingRow>, minimumBreak: real, m: nat, r: nat, e: Direction)
    requires r <= |rows|
  {
    forall i :: m < i < r ==>
      !Withdraws(rows, minimumBreak, i, e) && !Confirms(rows, minimumBreak, m, i, e)
  }

  ghost predicate Pending(rows: seq<SwingRow>, minimumBreak: real, m: nat, r: nat, e: Direction, c: Cycle)
    requires m < |rows| && r <= |rows| && ShiftAt(rows, minimumBreak, m, e)
  {
    && c.Challenged? && c.dir == Opposite(e) && c.origin == m
    && c.level.price == MoveAt(rows, minimumBreak, m).event.value.level
    && (c.pullback.Some? <==> PullbackBetween(rows, minimumBreak, m, r, e))
  }

  lemma {:induction false} ChallengedRow(s: Snapshot, row: SwingRow, minimumBreak: real, position: nat)
    requires s.cycle.Challenged?
    ensures
      var c, e, tag := s.cycle, Opposite(s.cycle.dir), LabelOf(s.memory, row);
      var move := Advanced(s, row, minimumBreak, position);
      if tag == Some(Impulse(c.dir)) then
        move.event == Some(Event(MSSInvalidated, c.dir, c.level.price, None, Some(c.origin)))
      else if tag == Some(Impulse(e)) && c.pullback.Some? then
        move.event == Some(Event(CHoCH, e, c.level.price, None, None))
      else
        && move.event.None? && move.next.cycle.Challenged?
        && move.next.cycle.dir == c.dir && move.next.cycle.level == c.level && move.next.cycle.origin == c.origin
        && (move.next.cycle.pullback.Some? <==> c.pullback.Some? || tag == Some(Pullback(e)))
  {
    RememberKeepsDefence(s.memory, row, Bullish);
  }

  lemma {:induction false} ShiftStaysPending(rows: seq<SwingRow>, minimumBreak: real, m: nat, r: nat, e: Direction)
    requires m < r <= |rows| && ShiftAt(rows, minimumBreak, m, e) && Unresolved(rows, minimumBreak, m, r, e)
    ensures Pending(rows, minimumBreak, m, r, e, At(rows, minimumBreak, r).cycle)
    decreases r
  {
    hide Advanced, LabelOf;
    if r == m + 1 {
      OneRow(At(rows, minimumBreak, m), rows[m], minimumBreak, m);
      ShiftOrigin(At(rows, minimumBreak, m), rows[m], minimumBreak, m);
    } else {
      ShiftStaysPending(rows, minimumBreak, m, r - 1, e);
      var s := At(rows, minimumBreak, r - 1);
      ChallengedRow(s, rows[r - 1], minimumBreak, r - 1);
      assert !Withdraws(rows, minimumBreak, r - 1, e) && !Confirms(rows, minimumBreak, m, r - 1, e);
      if LabelAt(rows, minimumBreak, r - 1) == Some(Pullback(e)) {
        assert PullbackBetween(rows, minimumBreak, m, r, e);
      }
    }
  }

  /** While an MSS is pending the run emits nothing; it resolves at the first row
      that withdraws it (an impulse of the old direction) or confirms it (an
      impulse of its own direction after one of its pullbacks). */
  lemma {:induction false} ShiftResolvesAtFirst(rows: seq<SwingRow>, minimumBreak: real, m: nat, r: nat, e: Direction)
    requires m < r < |rows| && ShiftAt(rows, minimumBreak, m, e) && Unresolved(rows, minimumBreak, m, r, e)
    ensures
      var event, level := MoveAt(rows, minimumBreak, r).event, MoveAt(rows, minimumBreak, m).event.value.level;
      event ==
      if Withdraws(rows, minimumBreak, r, e) then Some(Event(MSSInvalidated, Opposite(e), level, None, Some(m)))
      else if Confirms(rows, minimumBreak, m, r, e) then Some(Event(CHoCH, e, level, None, None))
      else None
  {
    ShiftStaysPending(rows, minimumBreak, m, r, e);
    ChallengedRow(At(rows, minimumBreak, r), rows[r], minimumBreak, r);
  }

  /** A challenged cycle was challenged by the MSS at its origin, unresolved since. */
  lemma {:induction false} ChallengeHasOrigin(rows: seq<SwingRow>, minimumBreak: real, p: nat)
    requires p <= |rows| && At(rows, minimumBreak, p).cycle.Challenged?
    ensures
      var c := At(rows, minimumBreak, p).cycle;
      && c.origin < p
      && ShiftAt(rows, minimumBreak, c.origin, Opposite(c.dir))
      && Unresolved(rows, minimumBreak, c.origin, p, Opposite(c.dir))
      && Pending(rows, minimumBreak, c.origin, p, Opposite(c.dir), c)
  {
    hide Advanced, LabelOf;
    var s, row := At(rows, minimumBreak, p - 1), rows[p - 1];
    OneRow(s, row, minimumBreak, p - 1);
    if s.cycle.Challenged? {
      ChallengeHasOrigin(rows, minimumBreak, p - 1);
      ChallengedRow(s, row, minimumBreak, p - 1);
      var c := At(rows, minimumBreak, p).cycle;
      assert LabelAt(rows, minimumBreak, p - 1) == LabelOf(s.memory, row);
      forall i | c.origin < i < p
        ensures !Withdraws(rows, minimumBreak, i, Opposite(c.dir))
                && !Confirms(rows, minimumBreak, c.origin, i, Opposite(c.dir))
      {
        if i < p - 1 {
          assert Unresolved(rows, minimumBreak, c.origin, p - 1, Opposite(c.dir));
        }
      }
    } else {
      ShiftOrigin(s, row, minimumBreak, p - 1);
    }
    var now := At(rows, minimumBreak, p).cycle;
    ShiftStaysPending(rows, minimumBreak, now.origin, p, Opposite(now.dir));
  }

  lemma {:induction false} ShiftOrigin(s: Snapshot, row: SwingRow, minimumBreak: real, position: nat)
    requires !s.cycle.Challenged?
    ensures var move := Advanced(s, row, minimumBreak, position);
            move.next.cycle.Challenged? ==>
              && move.next.cycle.pullback.None?
              && move.next.cycle.origin == position
              && move.event.Some? && move.event.value.kind == MSS
              && move.event.value.level == move.next.cycle.level.price
  {
    OneRow(s, row, minimumBreak, position);
  }
}
