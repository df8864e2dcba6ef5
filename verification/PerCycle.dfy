/** One-pass classification under a resetting baseline is the same as cutting the
    series after every CHoCH and classifying each piece from scratch. */
module PerCycle {
  import opened Domain
  import opened Structure
  import opened Swings

  /** Is row `p` the last of its cycle? */
  predicate EndsCycle(rows: seq<SwingRow>, minimumBreak: real, p: nat)
    requires p < |rows|
  {
    OutAt(rows, minimumBreak, p).event == Some(CHoCH)
  }

  /** The row joins the last piece; a row that ends its cycle also closes it. */
  function Grown(pieces: seq<seq<SwingRow>>, row: SwingRow, ends: bool): (grown: seq<seq<SwingRow>>)
    requires pieces != []
    ensures grown != []
  {
    var joined := pieces[..|pieces| - 1] + [pieces[|pieces| - 1] + [row]];
    if ends then joined + [[]] else joined
  }

  /** The first `n` rows, cut after every CHoCH row; the last piece is the cycle
      still running. */
  function Pieces(rows: seq<SwingRow>, minimumBreak: real, n: nat): (pieces: seq<seq<SwingRow>>)
    requires n <= |rows|
    ensures pieces != []
  {
    if n == 0 then [[]]
    else Grown(Pieces(rows, minimumBreak, n - 1), rows[n - 1], EndsCycle(rows, minimumBreak, n - 1))
  }

  /** Classify every piece from scratch and put the labels back together. */
  function Joined(pieces: seq<seq<SwingRow>>): seq<Option<Label>> {
    if pieces == [] then []
    else Joined(pieces[..|pieces| - 1]) + Classified(pieces[|pieces| - 1], FRESH)
  }

  /** The pieces put back together are the series. */
  function Flat(pieces: seq<seq<SwingRow>>): seq<SwingRow> {
    if pieces == [] then [] else Flat(pieces[..|pieces| - 1]) + pieces[|pieces| - 1]
  }

  function Last(pieces: seq<seq<SwingRow>>): seq<SwingRow>
    requires pieces != []
  {
    pieces[|pieces| - 1]
  }

  lemma {:induction false} ReplacedJoins(front: seq<seq<SwingRow>>, last: seq<SwingRow>)
    ensures Joined(front + [last]) == Joined(front) + Classified(last, FRESH)
    ensures Flat(front + [last]) == Flat(front) + last
  {
    var pieces := front + [last];
    assert pieces[..|pieces| - 1] == front;
  }

  lemma {:induction false} GrownJoins(before: seq<seq<SwingRow>>, row: SwingRow)
    requires before != []
    ensures Joined(Grown(before, row, false))
            == Joined(before) + [LabelAgainst(BaselineAfter(Last(before), FRESH), row)]
    ensures Flat(Grown(before, row, false)) == Flat(before) + [row]
  {
    hide LabelAgainst, Joined, Flat, Classified, BaselineAfter;
    var front, last := before[..|before| - 1], Last(before);
    ClassifiedAppend(last, row, FRESH);
    ReplacedJoins(front, last);
    ReplacedJoins(front, last + [row]);
    assert before == front + [last];
  }

  lemma {:induction false} EmptyPieceJoins(pieces: seq<seq<SwingRow>>)
    ensures Joined(pieces + [[]]) == Joined(pieces) && Flat(pieces + [[]]) == Flat(pieces)
  {
    ReplacedJoins(pieces, []);
  }

  function Labels(rows: seq<SwingRow>, minimumBreak: real, n: nat): seq<Option<Label>>
    requires n <= |rows|
  {
    seq(n, i requires 0 <= i < n => OutAt(rows, minimumBreak, i).tag)
  }

  function Held(price: Option<real>): Option<Option<real>> { if price.None? then None else Some(price) }

  /** The running cycle's baseline, as the simple classifier keeps it. */
  function BaselineOf(m: Memory): Baseline { Baseline(Held(m.cycleHigh), Held(m.cycleLow)) }

  lemma {:induction false} RegularRowLabel(s: Snapshot, row: SwingRow, minimumBreak: real, position: nat)
    requires Regular(row)
    ensures
      var b := BaselineOf(s.memory);
      var move := Advanced(s, row, minimumBreak, position);
      && LabelOf(s.memory, row) == LabelAgainst(b, row)
      && BaselineOf(move.next.memory)
         == if move.event.Some? && move.event.value.kind == CHoCH then FRESH else NextBaseline(b, row)
  {
    assert HighPrice(row) == if row.swingHigh then row.high else None;
    assert LowPrice(row) == if row.swingLow then row.low else None;
    if s.cycle.Challenged? {
    } else if s.cycle.Trending? {
    }
  }

  predicate Tracks(pieces: seq<seq<SwingRow>>, m: Memory, tags: seq<Option<Label>>, rows: seq<SwingRow>) {
    && pieces != []
    && BaselineAfter(Last(pieces), FRESH) == BaselineOf(m)
    && Joined(pieces) == tags && Flat(pieces) == rows
  }

  lemma {:induction false} TracksOneMore(pieces: seq<seq<SwingRow>>, s: Snapshot, tags: seq<Option<Label>>,
                                        rows: seq<SwingRow>,
                      row: SwingRow, minimumBreak: real, position: nat)
    requires Tracks(pieces, s.memory, tags, rows) && Regular(row)
    ensures
      var move := Advanced(s, row, minimumBreak, position);
      var ends := move.event.Some? && move.event.value.kind == CHoCH;
      Tracks(Grown(pieces, row, ends), move.next.memory, tags + [LabelOf(s.memory, row)], rows + [row])
  {
    RegularRowLabel(s, row, minimumBreak, position);
    hide Advanced;
    GrownJoins(pieces, row);
    ClassifiedAppend(Last(pieces), row, FRESH);
    EmptyPieceJoins(Grown(pieces, row, false));
  }

  lemma {:induction false} PiecesTrackBaseline(rows: seq<SwingRow>, minimumBreak: real, n: nat)
    requires n <= |rows| && forall i :: 0 <= i < n ==> Regular(rows[i])
    ensures Tracks(Pieces(rows, minimumBreak, n), At(rows, minimumBreak, n).memory, Labels(rows, minimumBreak, n),
                   rows[..n])
  {
    hide Advanced, Tracks;
    if n == 0 {
      NothingTracked();
    } else {
      PiecesTrackBaseline(rows, minimumBreak, n - 1);
      TracksOneMore(Pieces(rows, minimumBreak, n - 1), At(rows, minimumBreak, n - 1), Labels(rows, minimumBreak, n - 1),
                    rows[..n - 1], rows[n - 1], minimumBreak, n - 1);
      assert Labels(rows, minimumBreak, n)
             == Labels(rows, minimumBreak, n - 1) + [OutAt(rows, minimumBreak, n - 1).tag];
      assert rows[..n] == rows[..n - 1] + [rows[n - 1]];
    }
  }

  lemma {:induction false} NothingTracked()
    ensures Tracks([[]], START.memory, [], [])
  {
    var none: seq<seq<SwingRow>> := [];
    EmptyPieceJoins(none);
    assert none + [[]] == [[]];
  }

  /** The canonical label column of any candle series. */
  lemma {:induction false} OnePassIsSplitAndClassify(candles: seq<Candle>, left: nat, right: nat, minimumBreak: real)
    ensures
      var rows := SwingRows(candles, left, right);
      var pieces := Pieces(rows, minimumBreak, |rows|);
      Flat(pieces) == rows && Labels(rows, minimumBreak, |rows|) == Joined(pieces)
  {
    var rows := SwingRows(candles, left, right);
    PiecesTrackBaseline(rows, minimumBreak, |rows|);
    hide Advanced;
    assert rows[..|rows|] == rows;
  }
}
