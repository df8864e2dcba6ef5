/** The forward walk that decides, for each reward multiple, whether its target or
    the stop is reached first; two implementations and one reading. */
module RMultiples {
  import opened Domain

  datatype Verdict = TargetFirst | StopFirst | Undetermined

  datatype Bar = Bar(high: real, low: real)

  const MULTIPLES: set<nat> := {1, 2, 3}

  /** Entry, stop distance and direction of a trade. */
  datatype Trade = Trade(entry: real, distance: real, dir: Direction)

  /** The distance is taken without its sign, whichever side the stop is on. */
  function TradeOf(entry: real, stop: real, d: Direction): (t: Trade)
    ensures t.distance >= 0.0 && (t.distance == 0.0 <==> entry == stop)
  {
    Trade(entry, if entry < stop then stop - entry else entry - stop, d)
  }

  function StopLevel(t: Trade): real {
    if t.dir == Bullish then t.entry - t.distance else t.entry + t.distance
  }

  function TargetLevel(t: Trade, m: nat): real {
    if t.dir == Bullish then t.entry + m as real * t.distance else t.entry - m as real * t.distance
  }

  predicate StopHit(t: Trade, b: Bar) {
    if t.dir == Bullish then b.low <= StopLevel(t) else b.high >= StopLevel(t)
  }

  predicate TargetHit(t: Trade, m: nat, b: Bar) {
    if t.dir == Bullish then b.high >= TargetLevel(t, m) else b.low <= TargetLevel(t, m)
  }

  // ----- The reading: first target row against first stop row -----

  /** The first bar of `bars[from..]` that reaches the stop, or `|bars|`. */
  function FirstStop(t: Trade, bars: seq<Bar>, from: nat): (k: nat)
    requires from <= |bars|
    ensures from <= k <= |bars| && (k < |bars| ==> StopHit(t, bars[k]))
    ensures forall i :: from <= i < k ==> !StopHit(t, bars[i])
    decreases |bars| - from
  {
    if from == |bars| || StopHit(t, bars[from]) then from else FirstStop(t, bars, from + 1)
  }

  function FirstTarget(t: Trade, m: nat, bars: seq<Bar>, from: nat): (k: nat)
    requires from <= |bars|
    ensures from <= k <= |bars| && (k < |bars| ==> TargetHit(t, m, bars[k]))
    ensures forall i :: from <= i < k ==> !TargetHit(t, m, bars[i])
    decreases |bars| - from
  {
    if from == |bars| || TargetHit(t, m, bars[from]) then from else FirstTarget(t, m, bars, from + 1)
  }

  /** A tie goes to the stop; reaching neither leaves the multiple undetermined. */
  function Decided(t: Trade, m: nat, bars: seq<Bar>): Verdict {
    var stop, target := FirstStop(t, bars, 0), FirstTarget(t, m, bars, 0);
    if target < stop then TargetFirst else if stop < |bars| then StopFirst else Undetermined
  }

  // ----- The walks -----

  /** What is settled for a multiple after the first `n` bars. */
  ghost predicate SettledBy(t: Trade, m: nat, bars: seq<Bar>, n: nat)
    requires n <= |bars|
  {
    FirstStop(t, bars, 0) < n || FirstTarget(t, m, bars, 0) < n
  }

  /** The map and the open multiples agree with the reading of the first `n` bars. */
  ghost predicate WalkedTo(t: Trade, bars: seq<Bar>, n: nat, outcomes: map<nat, Verdict>, remaining: set<nat>)
    requires n <= |bars|
  {
    && remaining <= MULTIPLES && MULTIPLES <= outcomes.Keys + remaining && outcomes.Keys <= MULTIPLES
    && (forall m :: m in remaining ==> !SettledBy(t, m, bars, n))
    && (forall m :: m in MULTIPLES && m !in remaining ==>
          SettledBy(t, m, bars, n) && m in outcomes && outcomes[m] == Decided(t, m, bars))
  }

  lemma {:induction false} BarDecides(t: Trade, m: nat, bars: seq<Bar>, n: nat)
    requires n < |bars| && !SettledBy(t, m, bars, n)
    ensures SettledBy(t, m, bars, n + 1) <==> StopHit(t, bars[n]) || TargetHit(t, m, bars[n])
    ensures StopHit(t, bars[n]) ==> Decided(t, m, bars) == StopFirst
    ensures !StopHit(t, bars[n]) && TargetHit(t, m, bars[n]) ==> Decided(t, m, bars) == TargetFirst
  {
  }

  lemma {:induction false} SettledRemain(t: Trade, bars: seq<Bar>, n: nat)
    requires n < |bars|
    ensures forall m :: SettledBy(t, m, bars, n) ==> SettledBy(t, m, bars, n + 1)
  {
  }

  /** One bar, over the multiples still open, in any order. */
  method WalkBar(t: Trade, bars: seq<Bar>, n: nat, outcomes: map<nat, Verdict>, remaining: set<nat>)
    returns (next: map<nat, Verdict>, left: set<nat>)
    requires n < |bars| && WalkedTo(t, bars, n, outcomes, remaining)
    ensures WalkedTo(t, bars, n + 1, next, left)
    ensures left <= remaining && next.Keys == outcomes.Keys + (remaining - left)
    ensures forall m :: m in left && m in outcomes ==> next[m] == outcomes[m]
  {
    hide SettledBy, Decided, StopHit, TargetHit;
    SettledRemain(t, bars, n);
    next, left := outcomes, remaining;
    var stopHit := StopHit(t, bars[n]);
    var todo := remaining;
    while todo != {}
      invariant todo <= left <= remaining && next.Keys == outcomes.Keys + (remaining - left)
      invariant forall m :: m in left && m !in todo ==> !SettledBy(t, m, bars, n + 1)
      invariant forall m :: m in MULTIPLES && m !in left ==>
                  SettledBy(t, m, bars, n + 1) && m in next && next[m] == Decided(t, m, bars)
      invariant forall m :: m in left && m in outcomes ==> next[m] == outcomes[m]
      decreases todo
    {
      var m :| m in todo;
      todo := todo - {m};
      BarDecides(t, m, bars, n);
      if stopHit {
        next, left := next[m := StopFirst], left - {m};
      } else if TargetHit(t, m, bars[n]) {
        next, left := next[m := TargetFirst], left - {m};
      }
    }
  }

  lemma {:induction false} NothingSettled(t: Trade, bars: seq<Bar>)
    ensures forall m :: !SettledBy(t, m, bars, 0)
  {
  }

  lemma {:induction false} UnsettledIsUndetermined(t: Trade, m: nat, bars: seq<Bar>)
    ensures SettledBy(t, m, bars, |bars|) <==> Decided(t, m, bars) != Undetermined
  {
  }

  lemma {:induction false} SettledStays(t: Trade, bars: seq<Bar>, n: nat, outcomes: map<nat, Verdict>)
    requires n <= |bars| && WalkedTo(t, bars, n, outcomes, {})
    ensures WalkedTo(t, bars, |bars|, outcomes, {})
  {
  }

  /** The research report's bars in order, until no multiple is left open. */
  method WalkBars(t: Trade, bars: seq<Bar>, start: map<nat, Verdict>)
    returns (outcomes: map<nat, Verdict>, remaining: set<nat>)
    requires start.Keys <= MULTIPLES
    ensures remaining <= MULTIPLES && outcomes.Keys == start.Keys + (MULTIPLES - remaining)
    ensures forall m :: m in MULTIPLES - remaining ==> outcomes[m] == Decided(t, m, bars)
    ensures forall m :: m in MULTIPLES ==> (m in remaining <==> Decided(t, m, bars) == Undetermined)
    ensures forall m :: m in remaining && m in start ==> outcomes[m] == start[m]
  {
    hide SettledBy, Decided;
    NothingSettled(t, bars);
    outcomes, remaining := start, MULTIPLES;
    var n := 0;
    while n < |bars| && remaining != {}
      invariant n <= |bars| && WalkedTo(t, bars, n, outcomes, remaining)
      invariant outcomes.Keys == start.Keys + (MULTIPLES - remaining)
      invariant forall m :: m in remaining && m in start ==> outcomes[m] == start[m]
      decreases |bars| - n
    {
      outcomes, remaining := WalkBar(t, bars, n, outcomes, remaining);
      n := n + 1;
    }
    if remaining == {} {
      SettledStays(t, bars, n, outcomes);
    }
    forall m | m in MULTIPLES ensures m in remaining <==> Decided(t, m, bars) == Undetermined {
      UnsettledIsUndetermined(t, m, bars);
    }
  }

  /** What a rejection record says of its Order Block. */
  datatype Evidence = NoConfirmedBlock | NoDistalLevel | Distal(level: real)

  datatype Unavailable = DirectionUnknown | NoBlockInEvidence | MissingDistal | ZeroStopDistance

  /** The rejection analyser's bar: the stop with the target, the stop alone, or the
      target alone, for every multiple still open. */
  method AnalyseBar(t: Trade, bars: seq<Bar>, n: nat, outcomes: map<nat, Verdict>, remaining: set<nat>)
    returns (next: map<nat, Verdict>, left: set<nat>)
    requires n < |bars| && WalkedTo(t, bars, n, outcomes, remaining)
    ensures WalkedTo(t, bars, n + 1, next, left)
    ensures left <= remaining && next.Keys == outcomes.Keys + (remaining - left)
  {
    hide SettledBy, Decided, StopHit, TargetHit;
    SettledRemain(t, bars, n);
    next, left := outcomes, remaining;
    var stopHit := StopHit(t, bars[n]);
    var todo := remaining;
    while todo != {}
      invariant todo <= left <= remaining && next.Keys == outcomes.Keys + (remaining - left)
      invariant forall m :: m in left && m !in todo ==> !SettledBy(t, m, bars, n + 1)
      invariant forall m :: m in MULTIPLES && m !in left ==>
                  SettledBy(t, m, bars, n + 1) && m in next && next[m] == Decided(t, m, bars)
      decreases todo
    {
      var m :| m in todo;
      todo := todo - {m};
      BarDecides(t, m, bars, n);
      var targetHit := TargetHit(t, m, bars[n]);
      if stopHit && targetHit {
        next, left := next[m := StopFirst], left - {m};
      } else if stopHit {
        next, left := next[m := StopFirst], left - {m};
      } else if targetHit {
        next, left := next[m := TargetFirst], left - {m};
      }
    }
  }

  /** The rejection analyser: no analysis without a direction, a confirmed block, its
      distal level and a distance to it; otherwise multiples start unset, and the ones
      the walk leaves open are filled in after it. */
  method AnalyseMultiples(d: Option<Direction>, evidence: Evidence, entry: real, bars: seq<Bar>)
    returns (analysis: Result<map<nat, Verdict>, Unavailable>)
    ensures analysis == Failure(DirectionUnknown) <==> d.None?
    ensures analysis == Failure(NoBlockInEvidence) <==> d.Some? && evidence.NoConfirmedBlock?
    ensures analysis == Failure(MissingDistal) <==> d.Some? && evidence.NoDistalLevel?
    ensures analysis == Failure(ZeroStopDistance) <==> d.Some? && evidence == Distal(entry)
    ensures analysis.Success? ==>
              d.Some? && evidence.Distal? && analysis.value.Keys == MULTIPLES
              && forall m :: m in MULTIPLES ==>
                   analysis.value[m] == Decided(TradeOf(entry, evidence.level, d.value), m, bars)
  {
    if d.None? {
      return Failure(DirectionUnknown);
    }
    if evidence.NoConfirmedBlock? {
      return Failure(NoBlockInEvidence);
    }
    if evidence.NoDistalLevel? {
      return Failure(MissingDistal);
    }
    var t := TradeOf(entry, evidence.level, d.value);
    if t.distance <= 0.0 {
      return Failure(ZeroStopDistance);
    }
    hide SettledBy, Decided, TradeOf;
    NothingSettled(t, bars);
    var outcomes: map<nat, Verdict>, remaining := map[], MULTIPLES;
    var n := 0;
    while n < |bars| && remaining != {}
      invariant n <= |bars| && WalkedTo(t, bars, n, outcomes, remaining)
      invariant outcomes.Keys == MULTIPLES - remaining
      decreases |bars| - n
    {
      outcomes, remaining := AnalyseBar(t, bars, n, outcomes, remaining);
      n := n + 1;
    }
    outcomes := FillIn(t, bars, n, outcomes, remaining);
    return Success(outcomes);
  }

  /** The multiples still open after the walk are undetermined. */
  method FillIn(t: Trade, bars: seq<Bar>, n: nat, outcomes: map<nat, Verdict>, remaining: set<nat>)
    returns (all: map<nat, Verdict>)
    requires n <= |bars| && WalkedTo(t, bars, n, outcomes, remaining) && (n == |bars| || remaining == {})
    requires outcomes.Keys == MULTIPLES - remaining
    ensures all.Keys == MULTIPLES && forall m :: m in MULTIPLES ==> all[m] == Decided(t, m, bars)
  {
    hide SettledBy, Decided;
    all := outcomes;
    var todo := remaining;
    while todo != {}
      invariant todo <= remaining && all.Keys == MULTIPLES - todo
      invariant forall m :: m in MULTIPLES - todo ==> all[m] == Decided(t, m, bars)
      decreases todo
    {
      var m :| m in todo;
      todo := todo - {m};
      UnsettledIsUndetermined(t, m, bars);
      all := all[m := Undetermined];
    }
  }

  /** The research report: multiples start undetermined; without a stop distance
      nothing is decided. */
  method WalkSetup(entry: real, stop: real, d: Direction, bars: seq<Bar>) returns (outcomes: map<nat, Verdict>)
    ensures outcomes.Keys == MULTIPLES
    ensures forall m :: m in MULTIPLES ==>
              outcomes[m] == if entry == stop then Undetermined else Decided(TradeOf(entry, stop, d), m, bars)
  {
    hide Decided;
    var t := TradeOf(entry, stop, d);
    outcomes := map m | m in MULTIPLES :: Undetermined;
    if t.distance <= 0.0 {
      return;
    }
    var remaining;
    outcomes, remaining := WalkBars(t, bars, outcomes);
  }

  // ----- Monotonicity -----

  lemma {:induction false} NearerTargetsComeFirst(t: Trade, k: nat, m: nat, b: Bar)
    requires t.distance >= 0.0 && k <= m && TargetHit(t, m, b)
    ensures TargetHit(t, k, b)
  {
    assert k as real * t.distance <= m as real * t.distance;
  }

  /** A farther target is never reached before a nearer one. */
  lemma {:induction false} VerdictsAreMonotone(t: Trade, bars: seq<Bar>, k: nat, m: nat)
    requires t.distance >= 0.0 && k <= m
    ensures Decided(t, m, bars) == TargetFirst ==> Decided(t, k, bars) == TargetFirst
    ensures Decided(t, k, bars) == StopFirst ==> Decided(t, m, bars) == StopFirst
    ensures Decided(t, k, bars) == Undetermined ==> Decided(t, m, bars) == Undetermined
  {
    var near, far := FirstTarget(t, k, bars, 0), FirstTarget(t, m, bars, 0);
    if far < |bars| {
      NearerTargetsComeFirst(t, k, m, bars[far]);
    }
    assert near <= far;
  }
}
