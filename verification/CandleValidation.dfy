/** Raw candles brought into the normal form every engine assumes. */
module CandleValidation {
  import opened Domain
  import Items
  import EventStream
  import Proposals

  /** A row as fetched: None where a cell does not parse or is not finite. */
  datatype RawCandle = RawCandle(
    time: Option<int>, open: Option<real>, high: Option<real>, low: Option<real>, close: Option<real>)

  datatype Rejection = EmptyFrame | InvalidTime | InvalidNumber | DuplicateTime | InvalidHigh | InvalidLow

  predicate HasTime(r: RawCandle) { r.time.Some? }

  predicate HasNumbers(r: RawCandle) { r.open.Some? && r.high.Some? && r.low.Some? && r.close.Some? }

  function Parsed(r: RawCandle): Candle
    requires HasTime(r) && HasNumbers(r)
  {
    Candle(r.time.value, r.open.value, r.high.value, r.low.value, r.close.value, None)
  }

  function Raw(c: Candle): RawCandle {
    RawCandle(Some(c.time), Some(c.open), Some(c.high), Some(c.low), Some(c.close))
  }

  predicate AllTimed(raw: seq<RawCandle>) { forall r :: r in raw ==> HasTime(r) }

  predicate AllNumbered(raw: seq<RawCandle>) { forall r :: r in raw ==> HasNumbers(r) }

  predicate Readable(raw: seq<RawCandle>) { AllTimed(raw) && AllNumbered(raw) }

  function ParsedAll(raw: seq<RawCandle>): seq<Candle>
    requires Readable(raw)
  {
    seq(|raw|, i requires 0 <= i < |raw| => Parsed(raw[i]))
  }

  predicate HighOnTop(c: Candle) { c.high >= c.open && c.high >= c.close && c.high >= c.low }

  predicate LowBelow(c: Candle) { c.low <= c.open && c.low <= c.close && c.low <= c.high }

  predicate HighsOnTop(candles: seq<Candle>) { forall c :: c in candles ==> HighOnTop(c) }

  predicate LowsBelow(candles: seq<Candle>) { forall c :: c in candles ==> LowBelow(c) }

  // ----- Sorting -----

  predicate Earlier(a: Candle, b: Candle) { a.time < b.time }

  predicate Ascending(s: seq<Candle>) { forall i, j :: 0 <= i < j < |s| ==> s[i].time <= s[j].time }

  predicate StrictlyAscending(s: seq<Candle>) { forall i, j :: 0 <= i < j < |s| ==> s[i].time < s[j].time }

  predicate Distinct(s: seq<Candle>) { forall i, j :: 0 <= i < j < |s| ==> s[i].time != s[j].time }

  lemma {:induction false} SortAscends(s: seq<Candle>)
    ensures Ascending(Items.Sorted(s, Earlier))
  {
    hide Items.Sorted;
    Items.SortSorts(s, Earlier);
  }

  lemma {:induction false} SortKeepsSorted(s: seq<Candle>)
    requires StrictlyAscending(s)
    ensures Items.Sorted(s, Earlier) == s
  {
    hide Items.Insert;
    if s != [] {
      var front, last := s[..|s| - 1], s[|s| - 1];
      assert s == front + [last];
      SortKeepsSorted(front);
      assert Items.Sorted(s, Earlier) == Items.Insert(Items.Sorted(front, Earlier), last, Earlier);
      InsertsLast(front, last);
    }
  }

  lemma {:induction false} InsertsLast(s: seq<Candle>, c: Candle)
    requires s == [] || s[|s| - 1].time <= c.time
    ensures Items.Insert(s, c, Earlier) == s + [c]
  {
  }

  /** Whether times repeat does not depend on the order. */
  lemma {:induction false} DistinctByItems(s: seq<Candle>, t: seq<Candle>)
    requires multiset(s) == multiset(t) && Distinct(s)
    ensures Distinct(t)
  {
    forall i, j | 0 <= i < j < |t| ensures t[i].time != t[j].time {
      if t[i] == t[j] {
        Items.CountedTwice(t, i, j);
        var k, l := Items.FoundTwice(s, t[i]);
      } else {
        assert t[i] in multiset(t) && t[j] in multiset(t);
        var k :| 0 <= k < |s| && s[k] == t[i];
        var l :| 0 <= l < |s| && s[l] == t[j];
        assert k < l || l < k;
      }
    }
  }

  // ----- Validation -----

  function Checked(candles: seq<Candle>): Result<seq<Candle>, Rejection> {
    if !Distinct(candles) then Failure(DuplicateTime)
    else if !HighsOnTop(candles) then Failure(InvalidHigh)
    else if !LowsBelow(candles) then Failure(InvalidLow)
    else Success(candles)
  }

  function Validated(raw: seq<RawCandle>): Result<seq<Candle>, Rejection> {
    if raw == [] then Failure(EmptyFrame)
    else if !AllTimed(raw) then Failure(InvalidTime)
    else if !AllNumbered(raw) then Failure(InvalidNumber)
    else Checked(Items.Sorted(ParsedAll(raw), Earlier))
  }

  /** The guards on a sorted frame. */
  method CheckCandles(candles: seq<Candle>) returns (result: Result<seq<Candle>, Rejection>)
    requires Ascending(candles)
    ensures result == Checked(candles)
  {
    for i := 0 to |candles|
      invariant forall k, l :: 0 <= k < l < i ==> candles[k].time < candles[l].time
    {
      if i > 0 && candles[i - 1].time == candles[i].time {
        return Failure(DuplicateTime);
      }
    }
    for i := 0 to |candles|
      invariant forall k :: 0 <= k < i ==> HighOnTop(candles[k])
    {
      if candles[i].high < candles[i].open || candles[i].high < candles[i].close || candles[i].high < candles[i].low {
        assert candles[i] in candles;
        return Failure(InvalidHigh);
      }
    }
    for i := 0 to |candles|
      invariant forall k :: 0 <= k < i ==> LowBelow(candles[k])
    {
      if candles[i].low > candles[i].open || candles[i].low > candles[i].close || candles[i].low > candles[i].high {
        assert candles[i] in candles;
        return Failure(InvalidLow);
      }
    }
    return Success(candles);
  }

  method ValidateAndNormalize(raw: seq<RawCandle>) returns (result: Result<seq<Candle>, Rejection>)
    ensures result == Validated(raw)
  {
    hide Items.Sorted, Checked;
    if |raw| == 0 {
      return Failure(EmptyFrame);
    }
    for i := 0 to |raw|
      invariant forall k :: 0 <= k < i ==> HasTime(raw[k])
    {
      if raw[i].time.None? {
        assert raw[i] in raw;
        return Failure(InvalidTime);
      }
    }
    for i := 0 to |raw|
      invariant forall k :: 0 <= k < i ==> HasNumbers(raw[k])
    {
      if !HasNumbers(raw[i]) {
        assert raw[i] in raw;
        return Failure(InvalidNumber);
      }
    }
    var candles: seq<Candle> := [];
    for i := 0 to |raw|
      invariant |candles| == i && forall k :: 0 <= k < i ==> candles[k] == Parsed(raw[k])
    {
      candles := candles + [Parsed(raw[i])];
    }
    assert candles == ParsedAll(raw);
    SortAscends(candles);
    result := CheckCandles(Items.Sorted(candles, Earlier));
  }

  // ----- The normal form -----

  predicate Normal(candles: seq<Candle>) {
    StrictlyAscending(candles) && forall c :: c in candles ==> HighOnTop(c) && LowBelow(c) && c.atr.None?
  }

  /** Rows are accepted exactly when every cell reads, no time repeats and every
      candle encloses its prices; the result holds the same candles in order. */
  lemma {:induction false} AcceptedIsNormal(raw: seq<RawCandle>)
    ensures Validated(raw).Success? <==>
              raw != [] && Readable(raw) && Distinct(ParsedAll(raw))
              && forall c :: c in ParsedAll(raw) ==> HighOnTop(c) && LowBelow(c)
    ensures Validated(raw).Success? ==>
              Normal(Validated(raw).value) && multiset(Validated(raw).value) == multiset(ParsedAll(raw))
  {
    if Readable(raw) {
      var all, sorted := ParsedAll(raw), Items.Sorted(ParsedAll(raw), Earlier);
      SortAscends(all);
      ChecksIgnoreOrder(all, sorted);
      ParsedHasNoAtr(raw);
      Items.SameMembers(all, sorted);
      hide Items.Sorted, ParsedAll, HighOnTop, LowBelow;
    }
  }

  lemma {:induction false} ParsedHasNoAtr(raw: seq<RawCandle>)
    requires Readable(raw)
    ensures forall c :: c in ParsedAll(raw) ==> c.atr.None?
    ensures raw == [] <==> ParsedAll(raw) == []
  {
  }

  /** No guard on the sorted frame depends on the order. */
  lemma {:induction false} ChecksIgnoreOrder(s: seq<Candle>, t: seq<Candle>)
    requires multiset(s) == multiset(t)
    ensures Distinct(s) <==> Distinct(t)
    ensures (HighsOnTop(s) <==> HighsOnTop(t)) && (LowsBelow(s) <==> LowsBelow(t))
  {
    hide HighOnTop, LowBelow, Distinct;
    Items.SameMembers(s, t);
    if Distinct(s) {
      DistinctByItems(s, t);
    } else if Distinct(t) {
      DistinctByItems(t, s);
    }
  }

  lemma {:induction false} ParsedSplit(before: seq<RawCandle>, x: RawCandle, after: seq<RawCandle>)
    requires Readable(before + [x] + after)
    ensures Readable(before) && Readable([x]) && Readable(after) && Readable(before + after)
    ensures multiset(ParsedAll(before + [x] + after)) == multiset(ParsedAll(before + after)) + multiset{Parsed(x)}
  {
    assert x in before + [x] + after;
    assert forall r :: r in before || r in after ==> r in before + [x] + after;
    hide Parsed;
    assert ParsedAll(before + [x] + after) == ParsedAll(before) + [Parsed(x)] + ParsedAll(after);
    assert ParsedAll(before + after) == ParsedAll(before) + ParsedAll(after);
  }

  lemma {:induction false} ParsedItems(raw: seq<RawCandle>, other: seq<RawCandle>)
    requires Readable(raw) && Readable(other) && multiset(raw) == multiset(other)
    ensures multiset(ParsedAll(raw)) == multiset(ParsedAll(other))
  {
    if raw == [] {
      assert |other| == |multiset(other)| == 0;
    } else {
      var front, x := raw[..|raw| - 1], raw[|raw| - 1];
      assert raw == front + [x] + [] && front + [] == front && front + [x] == front + [x] + [];
      var before, after := Items.TakeOne(front, x, other);
      ParsedSplit(front, x, []);
      ParsedSplit(before, x, after);
      hide ParsedAll, Parsed, Readable;
      ParsedItems(front, before + after);
    }
  }

  lemma {:induction false} CheckedBySort(s: seq<Candle>, t: seq<Candle>)
    requires multiset(s) == multiset(t)
    ensures Checked(Items.Sorted(s, Earlier)) == Checked(Items.Sorted(t, Earlier))
  {
    var a, b := Items.Sorted(s, Earlier), Items.Sorted(t, Earlier);
    SortAscends(s);
    SortAscends(t);
    hide Items.Sorted;
    if Distinct(a) {
      DistinctByItems(a, b);
      Items.OrderIsUnique(a, b, Earlier);
    } else if Distinct(b) {
      DistinctByItems(b, a);
    }
  }

  /** The normal form of a frame does not depend on the order of its rows, nor does
      the reason for its rejection. */
  lemma {:induction false} OrderDoesNotMatter(raw: seq<RawCandle>, other: seq<RawCandle>)
    requires multiset(raw) == multiset(other)
    ensures Validated(raw) == Validated(other)
  {
    assert |raw| == |multiset(raw)| == |multiset(other)| == |other|;
    SameReadings(raw, other);
    hide Checked, Items.Sorted, AllTimed, AllNumbered, ParsedAll;
    if Readable(raw) {
      ParsedItems(raw, other);
      CheckedBySort(ParsedAll(raw), ParsedAll(other));
    }
  }

  lemma {:induction false} SameReadings(raw: seq<RawCandle>, other: seq<RawCandle>)
    requires multiset(raw) == multiset(other)
    ensures (AllTimed(raw) <==> AllTimed(other)) && (AllNumbered(raw) <==> AllNumbered(other))
  {
    hide HasTime, HasNumbers;
    Items.SameMembers(raw, other);
  }

  function RawAll(candles: seq<Candle>): seq<RawCandle> {
    seq(|candles|, i requires 0 <= i < |candles| => Raw(candles[i]))
  }

  lemma {:induction false} RawReads(candles: seq<Candle>)
    requires forall c :: c in candles ==> c.atr.None?
    ensures Readable(RawAll(candles)) && ParsedAll(RawAll(candles)) == candles
  {
    assert forall i :: 0 <= i < |candles| ==> candles[i] in candles;
  }

  lemma {:induction false} AcceptedAsIs(raw: seq<RawCandle>)
    requires raw != [] && Readable(raw) && Normal(ParsedAll(raw))
             && Items.Sorted(ParsedAll(raw), Earlier) == ParsedAll(raw)
    ensures Validated(raw) == Success(ParsedAll(raw))
  {
    hide Items.Sorted, ParsedAll;
  }

  /** Normalising a normal form changes nothing. */
  lemma {:induction false} NormalFormIsStable(raw: seq<RawCandle>)
    requires Validated(raw).Success?
    ensures
      var candles := Validated(raw).value;
      Validated(RawAll(candles)) == Success(candles)
  {
    hide Validated, Items.Sorted;
    AcceptedIsNormal(raw);
    var candles := Validated(raw).value;
    SortKeepsSorted(candles);
    RawReads(candles);
    AcceptedAsIs(RawAll(candles));
  }

  /** What the event stream and the strategy assume of their candles. */
  lemma {:induction false} NormalFormServes(raw: seq<RawCandle>)
    requires Validated(raw).Success?
    ensures
      var candles := Validated(raw).value;
      && EventStream.Increasing(seq(|candles|, i requires 0 <= i < |candles| => candles[i].time))
      && Proposals.WellFormed(candles)
  {
    AcceptedIsNormal(raw);
  }
}
