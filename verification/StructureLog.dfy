/** The structure rows turned into market events: numbering, the join of an
    invalidation to its MSS, and the strength of a break. */
module StructureLog {
  import opened Domain
  import opened Structure
  import opened StructureEvents

  /** `number` is the text id `EV_STR_<number>`; `originNumber` the id of the MSS
      an invalidation withdraws. */
  datatype LogEvent = LogEvent(
    number: nat, kind: EventKind, row: nat, dir: Option<Direction>,
    brokenLevel: Option<real>, strength: Option<real>,
    originIndex: Option<nat>, originNumber: Option<nat>)

  /** Break distance over required distance, where both exist and the second is not 0. */
  function Strength(o: OutRow): Option<real> {
    if o.breakDistance.None? || o.requiredDistance.None? || o.requiredDistance.value == 0.0 then None
    else Some(o.breakDistance.value / o.requiredDistance.value)
  }

  /** The number of the MSS event of row `m`, if it is among `events`. */
  function NumberOfShift(events: seq<LogEvent>, m: nat): Option<nat> {
    if events == [] then None
    else
      var last := events[|events| - 1];
      if last.kind == MSS && last.row == m then Some(last.number) else NumberOfShift(events[..|events| - 1], m)
  }

  function LogEventOf(o: OutRow, row: nat, before: seq<LogEvent>): LogEvent
    requires o.event.Some?
  {
    var joins := o.event.value == MSSInvalidated && o.invalidatedOrigin.Some?;
    LogEvent(|before| + 1, o.event.value, row, o.direction, o.brokenLevel, Strength(o),
             if joins then o.invalidatedOrigin else None,
             if joins then NumberOfShift(before, o.invalidatedOrigin.value) else None)
  }

  /** The events of the first `n` rows. */
  function Logged(outs: seq<OutRow>, n: nat): seq<LogEvent>
    requires n <= |outs|
  {
    if n == 0 then []
    else
      var before := Logged(outs, n - 1);
      if outs[n - 1].event.None? then before else before + [LogEventOf(outs[n - 1], n - 1, before)]
  }

  /** One pass that keeps a counter and a map from MSS rows to event numbers. */
  method BuildStructureEvents(outs: seq<OutRow>) returns (events: seq<LogEvent>)
    ensures events == Logged(outs, |outs|)
  {
    events := [];
    var number := 0;
    var shiftNumbers: map<nat, nat> := map[];
    for row := 0 to |outs|
      invariant events == Logged(outs, row) && number == |events|
      invariant forall m :: NumberOfShift(events, m) == if m in shiftNumbers then Some(shiftNumbers[m]) else None
      invariant forall m :: m in shiftNumbers ==> m < row
    {
      var o := outs[row];
      if o.event.Some? {
        number := number + 1;
        var originIndex: Option<nat>, originNumber: Option<nat> := None, None;
        if o.event.value == MSSInvalidated && o.invalidatedOrigin.Some? {
          originIndex := o.invalidatedOrigin;
          if o.invalidatedOrigin.value in shiftNumbers {
            originNumber := Some(shiftNumbers[o.invalidatedOrigin.value]);
          }
        }
        var strength: Option<real> := None;
        if o.breakDistance.Some? && o.requiredDistance.Some? && o.requiredDistance.value != 0.0 {
          strength := Some(o.breakDistance.value / o.requiredDistance.value);
        }
        var e := LogEvent(number, o.event.value, row, o.direction, o.brokenLevel, strength, originIndex, originNumber);
        if o.event.value == MSS {
          shiftNumbers := shiftNumbers[row := number];
        }
        assert (events + [e])[..|events|] == events;
        events := events + [e];
      }
    }
  }

  // ----- The join -----

  lemma {:induction false} LogsAreNumbered(outs: seq<OutRow>, n: nat)
    requires n <= |outs|
    ensures forall i :: 0 <= i < |Logged(outs, n)| ==> Logged(outs, n)[i].number == i + 1 && Logged(outs, n)[i].row < n
    ensures forall i, j :: 0 <= i < j < |Logged(outs, n)| ==> Logged(outs, n)[i].row < Logged(outs, n)[j].row
  {
    if n > 0 {
      LogsAreNumbered(outs, n - 1);
    }
  }

  lemma {:induction false} QuietRowsLogNothing(outs: seq<OutRow>, m: nat, n: nat)
    requires m <= n <= |outs| && forall i :: m <= i < n ==> outs[i].event.None?
    ensures Logged(outs, n) == Logged(outs, m)
  {
    if m < n {
      QuietRowsLogNothing(outs, m, n - 1);
    }
  }

  /** Nothing is emitted between a pending MSS and now. */
  lemma {:induction false} PendingIsQuiet(rows: seq<SwingRow>, minimumBreak: real, r: nat)
    requires r <= |rows| && At(rows, minimumBreak, r).cycle.Challenged?
    ensures forall i :: At(rows, minimumBreak, r).cycle.origin < i < r ==> OutAt(rows, minimumBreak, i).event.None?
  {
    ChallengeHasOrigin(rows, minimumBreak, r);
    var c := At(rows, minimumBreak, r).cycle;
    var m, e := c.origin, Opposite(c.dir);
    hide Advanced, LabelOf;
    forall i | m < i < r ensures OutAt(rows, minimumBreak, i).event.None? {
      assert Unresolved(rows, minimumBreak, m, i, e);
      assert !Withdraws(rows, minimumBreak, i, e) && !Confirms(rows, minimumBreak, m, i, e);
      ShiftResolvesAtFirst(rows, minimumBreak, m, i, e);
    }
  }

  /** Between an MSS and the row that withdraws it nothing is emitted. */
  lemma {:induction false} QuietUntilInvalidated(rows: seq<SwingRow>, minimumBreak: real, r: nat) returns (m: nat)
    requires r < |rows| && OutAt(rows, minimumBreak, r).event == Some(MSSInvalidated)
    ensures m < r && OutAt(rows, minimumBreak, r).invalidatedOrigin == Some(m)
    ensures OutAt(rows, minimumBreak, m).event == Some(MSS)
    ensures forall i :: m < i < r ==> OutAt(rows, minimumBreak, i).event.None?
  {
    var s := At(rows, minimumBreak, r);
    OneRow(s, rows[r], minimumBreak, r);
    ChallengedRow(s, rows[r], minimumBreak, r);
    ChallengeHasOrigin(rows, minimumBreak, r);
    m := s.cycle.origin;
    PendingIsQuiet(rows, minimumBreak, r);
  }

  lemma {:induction false} JoinsLast(outs: seq<OutRow>, m: nat, r: nat)
    requires m < r < |outs| && outs[m].event == Some(MSS)
    requires outs[r].event == Some(MSSInvalidated) && outs[r].invalidatedOrigin == Some(m)
    requires forall i :: m < i < r ==> outs[i].event.None?
    ensures
      var before := Logged(outs, r);
      var e := LogEventOf(outs[r], r, before);
      && before != [] && before[|before| - 1].kind == MSS && before[|before| - 1].row == m
      && e.originIndex == Some(m) && e.originNumber == Some(before[|before| - 1].number)
  {
    QuietRowsLogNothing(outs, m + 1, r);
    assert Logged(outs, r) == Logged(outs, m) + [LogEventOf(outs[m], m, Logged(outs, m))];
  }

  predicate JoinsPrevious(events: seq<LogEvent>, k: nat)
    requires k < |events|
  {
    k > 0 && events[k - 1].kind == MSS
    && events[k].originIndex == Some(events[k - 1].row) && events[k].originNumber == Some(events[k - 1].number)
  }

  /** Every invalidation in the log carries the id of the event just before it,
      which is the MSS it withdraws. */
  lemma {:induction false} InvalidationJoinsPrevious(rows: seq<SwingRow>, minimumBreak: real, n: nat, k: nat)
    requires n <= |rows| && k < |Logged(Run(rows, minimumBreak), n)|
    requires Logged(Run(rows, minimumBreak), n)[k].kind == MSSInvalidated
    ensures JoinsPrevious(Logged(Run(rows, minimumBreak), n), k)
  {
    var outs := Run(rows, minimumBreak);
    hide OutAt, LogEventOf;
    var before := Logged(outs, n - 1);
    if k < |before| {
      InvalidationJoinsPrevious(rows, minimumBreak, n - 1, k);
    } else {
      LastLogged(outs, n);
      var m := QuietUntilInvalidated(rows, minimumBreak, n - 1);
      JoinsLast(outs, m, n - 1);
    }
  }

  lemma {:induction false} LastLogged(outs: seq<OutRow>, n: nat)
    requires 0 < n <= |outs|
    ensures
      var before, after := Logged(outs, n - 1), Logged(outs, n);
      |after| > |before| ==>
        && outs[n - 1].event.Some? && after == before + [LogEventOf(outs[n - 1], n - 1, before)]
        && Some(after[|before|].kind) == outs[n - 1].event
  {
  }

  // ----- Strength -----

  lemma {:induction false} RatioAtLeastOne(a: real, b: real)
    requires a >= b > 0.0
    ensures a / b >= 1.0
  {
  }

  /** A break is at least as strong as required; its strength is missing only when
      nothing was required. Swing-driven events have none. */
  lemma {:induction false} BreaksAreStrong(rows: seq<SwingRow>, minimumBreak: real, p: nat)
    requires p < |rows| && minimumBreak >= 0.0
    requires rows[p].close.Some? && rows[p].atr.Some? ==> rows[p].atr.value >= 0.0
    ensures
      var o := OutAt(rows, minimumBreak, p);
      && (o.event in {Some(BOS), Some(MSS)} ==>
            && o.breakDistance.Some? && o.requiredDistance.Some? && o.breakDistance.value >= o.requiredDistance.value
            && (Strength(o).None? <==> o.requiredDistance.value == 0.0)
            && (Strength(o).Some? ==> Strength(o).value >= 1.0))
      && (o.event in {Some(CHoCH), Some(MSSInvalidated)} ==> Strength(o).None?)
  {
    var s, row := At(rows, minimumBreak, p), rows[p];
    BreakDistances(s, row, minimumBreak, p);
    var o := OutAt(rows, minimumBreak, p);
    hide Advanced, At;
    if o.event in {Some(BOS), Some(MSS)} {
      ThresholdNonNegative(row.atr.value, minimumBreak);
      if o.requiredDistance.value > 0.0 {
        RatioAtLeastOne(o.breakDistance.value, o.requiredDistance.value);
      }
    }
  }

  lemma {:induction false} ThresholdNonNegative(atr: real, minimumBreak: real)
    requires atr >= 0.0 && minimumBreak >= 0.0
    ensures Threshold(atr, minimumBreak) >= 0.0
  {
  }

  lemma {:induction false} BreakDistances(s: Snapshot, row: SwingRow, minimumBreak: real, position: nat)
    ensures
      var e, required := Advanced(s, row, minimumBreak, position).event, Required(row, minimumBreak);
      e.Some? ==>
        if e.value.kind in {BOS, MSS} then e.value.distance.Some? && required.Some?
          && e.value.distance.value >= required.value
        else e.value.distance.None?
  {
    hide LabelOf, Remember;
  }
}
