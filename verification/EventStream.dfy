/** The unified event stream: events of the three engines sorted by time, row and
    text id. */
module EventStream {
  import opened Domain
  import Items
  import opened TextIds
  import Q = Liquidity
  import O = OrderBlocks
  import L = StructureLog
  import S = Structure

  datatype Source = FromLiquidity | FromOrderBlocks | FromStructure

  datatype Item = Item(time: int, row: nat, source: Source, number: nat)

  function Prefix(source: Source): string {
    match source
    case FromLiquidity => "EV_LIQ_"
    case FromOrderBlocks => "EV_OB_"
    case FromStructure => "EV_STR_"
  }

  function Id(e: Item): string { Prefix(e.source) + Padded(e.number) }

  // ----- The sort key -----

  predicate Before(a: Item, b: Item) {
    if a.time != b.time then a.time < b.time
    else if a.row != b.row then a.row < b.row
    else TextLess(Id(a), Id(b))
  }

  function Rank(source: Source): nat {
    match source
    case FromLiquidity => 0
    case FromOrderBlocks => 1
    case FromStructure => 2
  }

  /** By row; on a row liquidity, then Order Blocks, then structure; within an
      engine in emission order. */
  predicate Ahead(a: Item, b: Item) {
    if a.row != b.row then a.row < b.row
    else if a.source != b.source then Rank(a.source) < Rank(b.source)
    else a.number < b.number
  }

  lemma {:induction false} PrefixesOrder(a: Source, b: Source, s: string, t: string)
    requires a != b
    ensures TextLess(Prefix(a) + s, Prefix(b) + t) <==> Rank(a) < Rank(b)
  {
    var x, y := (Prefix(a) + s)[3..], (Prefix(b) + t)[3..];
    assert Prefix(a) + s == "EV_" + x && Prefix(b) + t == "EV_" + y;
    CommonPrefix("EV_", x, y);
  }

  predicate Increasing(times: seq<int>) {
    forall i, j :: 0 <= i < j < |times| ==> times[i] < times[j]
  }

  predicate Stamped(e: Item, times: seq<int>) { e.row < |times| && e.time == times[e.row] }

  lemma {:induction false} TimesCompare(a: Item, b: Item, times: seq<int>)
    requires Increasing(times) && Stamped(a, times) && Stamped(b, times)
    ensures a.row != b.row ==> (Before(a, b) <==> a.row < b.row)
    ensures a.row == b.row ==> (Before(a, b) <==> TextLess(Id(a), Id(b)))
  {
    assert a.row < b.row ==> times[a.row] < times[b.row];
    assert b.row < a.row ==> times[b.row] < times[a.row];
  }

  lemma {:induction false} IdsCompare(a: Item, b: Item)
    ensures a.source != b.source ==> (TextLess(Id(a), Id(b)) <==> Rank(a.source) < Rank(b.source))
    ensures a.source == b.source ==> (TextLess(Id(a), Id(b)) <==> TextLess(Padded(a.number), Padded(b.number)))
  {
    if a.source == b.source {
      CommonPrefix(Prefix(a.source), Padded(a.number), Padded(b.number));
    } else {
      PrefixesOrder(a.source, b.source, Padded(a.number), Padded(b.number));
    }
  }

  /** The key is the rank, except between two events of one engine on one row whose
      numbers differ in width. */
  lemma {:induction false} KeyIsRank(a: Item, b: Item, times: seq<int>)
    requires Increasing(times) && Stamped(a, times) && Stamped(b, times)
    requires a.row == b.row && a.source == b.source ==> Width(a.number) == Width(b.number)
    ensures Before(a, b) <==> Ahead(a, b)
  {
    hide Before, Id, TextLess, Padded, Stamped, Width;
    TimesCompare(a, b, times);
    IdsCompare(a, b);
    if a.row == b.row && a.source == b.source {
      SameWidthOrder(a.number, b.number);
    }
  }

  // ----- The key is a strict total order -----

  lemma {:induction false} IdsAreInjective(a: Item, b: Item)
    requires Id(a) == Id(b)
    ensures a.source == b.source && a.number == b.number
  {
    assert Id(a)[3] == Prefix(a.source)[3] && Id(b)[3] == Prefix(b.source)[3];
    var p := Prefix(a.source);
    assert p == Prefix(b.source);
    assert (p + Padded(a.number))[|p|..] == Padded(a.number) && (p + Padded(b.number))[|p|..] == Padded(b.number);
    PaddedIsInjective(a.number, b.number);
  }

  lemma {:induction false} KeyIsAsymmetric()
    ensures Items.Asymmetric(Before)
  {
    forall a, b | Before(a, b) ensures !Before(b, a) {
      if TextLess(Id(a), Id(b)) {
        TextIsAsymmetric(Id(a), Id(b));
      }
    }
  }

  lemma {:induction false} KeyIsCotransitive()
    ensures Items.Cotransitive(Before)
  {
    forall x, y, z | !Before(y, x) && !Before(z, y) ensures !Before(z, x) {
      NotBefore(x, y, z);
    }
  }

  lemma {:induction false} NotBefore(x: Item, y: Item, z: Item)
    requires !Before(y, x) && !Before(z, y)
    ensures !Before(z, x)
  {
    var a, b, c := Id(x), Id(y), Id(z);
    hide Id, TextLess;
    if a != b {
      TextIsTotal(a, b);
    }
    if b != c {
      TextIsTotal(b, c);
    }
    if TextLess(a, b) && TextLess(b, c) {
      TextIsTransitive(a, b, c);
    }
    if TextLess(a, c) {
      TextIsAsymmetric(a, c);
    }
  }

  lemma {:induction false} KeyIsTotal(x: Item, y: Item)
    ensures x == y || Before(x, y) || Before(y, x)
  {
    if x.time == y.time && x.row == y.row {
      if Id(x) == Id(y) {
        IdsAreInjective(x, y);
      } else {
        TextIsTotal(Id(x), Id(y));
      }
    }
  }

  predicate InOrder(s: seq<Item>) {
    forall i, j :: 0 <= i < j < |s| ==> Ahead(s[i], s[j])
  }

  // ----- The stream of a run -----

  /** One engine's events as items, numbered in emission order. */
  function Stream(source: Source, rows: seq<nat>, times: seq<int>): seq<Item>
    requires RowOrdered(rows, |times|)
  {
    seq(|rows|, i requires 0 <= i < |rows| => Item(times[rows[i]], rows[i], source, i + 1))
  }

  predicate RowOrdered(rows: seq<nat>, n: nat) {
    && (forall i :: 0 <= i < |rows| ==> rows[i] < n)
    && forall i, j :: 0 <= i < j < |rows| ==> rows[i] <= rows[j]
  }

  /** No row holds both the event numbered 10^k - 1 and the one numbered 10^k, for any
      k that takes the number past five digits. */
  ghost predicate NoCrossing(rows: seq<nat>) {
    forall k: nat :: 5 <= k && Pow10(k) <= |rows| ==> rows[Pow10(k) - 2] != rows[Pow10(k) - 1]
  }

  lemma {:induction false} StreamPair(source: Source, rows: seq<nat>, times: seq<int>, i: nat, j: nat)
    requires Increasing(times) && RowOrdered(rows, |times|) && i < j < |rows|
    ensures
      var s := Stream(source, rows, times);
      Before(s[j], s[i]) <==> rows[i] == rows[j] && TextLess(Padded(j + 1), Padded(i + 1))
  {
    var s := Stream(source, rows, times);
    assert rows[i] <= rows[j];
    hide Before, Id, TextLess, Padded;
    TimesCompare(s[j], s[i], times);
    IdsCompare(s[j], s[i]);
  }

  /** Two numbers of different widths on one row have a power of ten between them. */
  lemma {:induction false} WidthsCross(rows: seq<nat>, i: nat, j: nat, n: nat)
    requires RowOrdered(rows, n) && i < j < |rows| && rows[i] == rows[j] && Width(i + 1) != Width(j + 1)
    ensures !NoCrossing(rows)
  {
    var k := Width(i + 1);
    NextPower(i + 1, j + 1);
    assert rows[i] <= rows[Pow10(k) - 2] <= rows[Pow10(k) - 1] <= rows[j];
  }

  lemma {:induction false} NextPower(a: nat, b: nat)
    requires 1 <= a < b && Width(a) != Width(b)
    ensures 5 <= Width(a) && a < Pow10(Width(a)) <= b
  {
    var w := Width(a);
    if b < Pow10(w) {
      WidthIs(b, w);
    }
  }

  lemma {:induction false} PairSorts(source: Source, rows: seq<nat>, times: seq<int>, i: nat, j: nat)
    requires Increasing(times) && RowOrdered(rows, |times|) && i < j < |rows| && NoCrossing(rows)
    ensures !Before(Stream(source, rows, times)[j], Stream(source, rows, times)[i])
  {
    hide Before, Padded, TextLess, Increasing, Width, NoCrossing;
    StreamPair(source, rows, times, i, j);
    if rows[i] == rows[j] {
      if Width(i + 1) != Width(j + 1) {
        WidthsCross(rows, i, j, |times|);
      } else {
        SameWidthOrder(j + 1, i + 1);
      }
    }
  }

  lemma {:induction false} CrossingInverts(source: Source, rows: seq<nat>, times: seq<int>, k: nat)
    requires Increasing(times) && RowOrdered(rows, |times|)
    requires 5 <= k && Pow10(k) <= |rows| && (Pow10(k) >= 2 ==> rows[Pow10(k) - 2] == rows[Pow10(k) - 1])
    ensures !Items.NoInversions(Stream(source, rows, times), Before)
  {
    hide Before, Padded, TextLess, Increasing, Pow10;
    PowersFallBack(k);
    var s, i, j := Stream(source, rows, times), Pow10(k) - 2, Pow10(k) - 1;
    StreamPair(source, rows, times, i, j);
    assert Before(s[j], s[i]);
  }

  /** A stream is without inversions exactly when no row crosses a power of ten. */
  lemma {:induction false} StreamSortsIff(source: Source, rows: seq<nat>, times: seq<int>)
    requires Increasing(times) && RowOrdered(rows, |times|)
    ensures Items.NoInversions(Stream(source, rows, times), Before) <==> NoCrossing(rows)
  {
    var s := Stream(source, rows, times);
    StreamLength(source, rows, times);
    hide Before, Stream, Increasing, Pow10, RowOrdered;
    if NoCrossing(rows) {
      forall i, j | 0 <= i < j < |s| ensures !Before(s[j], s[i]) {
        PairSorts(source, rows, times, i, j);
      }
    } else {
      var k: nat :| 5 <= k && Pow10(k) <= |rows| && (Pow10(k) >= 2 ==> rows[Pow10(k) - 2] == rows[Pow10(k) - 1]);
      CrossingInverts(source, rows, times, k);
    }
  }

  lemma {:induction false} StreamLength(source: Source, rows: seq<nat>, times: seq<int>)
    requires RowOrdered(rows, |times|)
    ensures |Stream(source, rows, times)| == |rows|
  {
  }

  /** Fewer than 100000 events never cross. */
  lemma {:induction false} ShortStreamsDoNotCross(rows: seq<nat>)
    requires |rows| <= 99999
    ensures NoCrossing(rows)
  {
    assert Pow10(5) == 100000;
    forall k: nat | 5 <= k ensures Pow10(k) > |rows| {
      PowersGrow(5, k);
    }
  }

  // ----- Each engine's part of the sorted stream -----

  function Only(s: seq<Item>, source: Source): (r: seq<Item>)
    ensures forall e :: e in r ==> e in s && e.source == source
  {
    if s == [] then []
    else Only(s[..|s| - 1], source) + if s[|s| - 1].source == source then [s[|s| - 1]] else []
  }

  lemma {:induction false} OnlyCounts(s: seq<Item>, source: Source, e: Item)
    ensures multiset(Only(s, source))[e] == if e.source == source then multiset(s)[e] else 0
  {
    if s != [] {
      OnlyCounts(s[..|s| - 1], source, e);
      assert s == s[..|s| - 1] + [s[|s| - 1]];
    }
  }

  lemma {:induction false} OnlySorts(s: seq<Item>, source: Source)
    requires Items.NoInversions(s, Before)
    ensures Items.NoInversions(Only(s, source), Before)
  {
    hide Before;
    if s != [] {
      var front, last := s[..|s| - 1], s[|s| - 1];
      OnlySorts(front, source);
      forall e | e in Only(front, source) ensures !Before(last, e) {
        var k :| 0 <= k < |front| && front[k] == e;
        assert s[k] == e;
      }
    }
  }

  /** `own` holds the items of one source, as often as `all` does. */
  ghost predicate PartOf(own: seq<Item>, all: seq<Item>, source: Source) {
    forall e :: multiset(own)[e] == if e.source == source then multiset(all)[e] else 0
  }

  /** One engine's events keep their emission order through the sort exactly when no
      row of theirs crosses a power of ten past five digits. */
  lemma {:induction false} EngineKeptIff(all: seq<Item>, sorted: seq<Item>, source: Source, rows: seq<nat>,
                                         times: seq<int>)
    requires Increasing(times) && RowOrdered(rows, |times|)
    requires multiset(sorted) == multiset(all) && Items.NoInversions(sorted, Before)
    requires PartOf(Stream(source, rows, times), all, source)
    ensures Only(sorted, source) == Stream(source, rows, times) <==> NoCrossing(rows)
  {
    hide Before, Stream, Only, Items.NoInversions, NoCrossing;
    var kept, stream := Only(sorted, source), Stream(source, rows, times);
    StreamSortsIff(source, rows, times);
    OnlySorts(sorted, source);
    if NoCrossing(rows) {
      forall e ensures multiset(kept)[e] == multiset(stream)[e] {
        OnlyCounts(sorted, source, e);
      }
      assert multiset(kept) == multiset(stream);
      forall x, y ensures x == y || Before(x, y) || Before(y, x) {
        KeyIsTotal(x, y);
      }
      Items.SortIsUnique(kept, stream, Before);
    }
  }

  // ----- The whole stream -----

  /** By row, and on a row by engine. */
  predicate RowWise(s: seq<Item>) {
    forall i, j :: 0 <= i < j < |s| ==>
      s[i].row < s[j].row || (s[i].row == s[j].row && Rank(s[i].source) <= Rank(s[j].source))
  }

  lemma {:induction false} SortedIsRowWise(sorted: seq<Item>, times: seq<int>)
    requires Increasing(times) && Items.NoInversions(sorted, Before) && forall e :: e in sorted ==> Stamped(e, times)
    ensures RowWise(sorted)
  {
    hide Before, Id, TextLess, Increasing, Stamped;
    forall i, j | 0 <= i < j < |sorted|
      ensures sorted[i].row < sorted[j].row
              || (sorted[i].row == sorted[j].row && Rank(sorted[i].source) <= Rank(sorted[j].source))
    {
      TimesCompare(sorted[j], sorted[i], times);
      IdsCompare(sorted[j], sorted[i]);
    }
  }

  lemma {:induction false} SameSourceAhead(sorted: seq<Item>, source: Source, i: nat, j: nat)
    requires i < j < |sorted| && sorted[i].source == sorted[j].source == source && InOrder(Only(sorted, source))
    ensures Ahead(sorted[i], sorted[j])
  {
    hide Ahead;
    var front, last := sorted[..|sorted| - 1], sorted[|sorted| - 1];
    var before := Only(front, source);
    if j == |sorted| - 1 {
      OnlyHolds(front, source, i);
      var k :| 0 <= k < |before| && before[k] == sorted[i];
      assert Only(sorted, source)[k] == sorted[i] && Only(sorted, source)[|before|] == last;
    } else {
      assert forall k, l :: 0 <= k < l < |before| ==>
               Only(sorted, source)[k] == before[k] && Only(sorted, source)[l] == before[l];
      SameSourceAhead(front, source, i, j);
    }
  }

  lemma {:induction false} OnlyHolds(s: seq<Item>, source: Source, i: nat)
    requires i < |s| && s[i].source == source
    ensures s[i] in Only(s, source)
  {
    OnlyCounts(s, source, s[i]);
    assert s[i] in multiset(s);
    assert s[i] in multiset(Only(s, source));
  }

  /** Of three lists with three sources, each one's items are counted by its source. */
  lemma {:induction false} SourceCounts(own: seq<Item>, others: seq<Item>, all: seq<Item>, source: Source)
    requires multiset(all) == multiset(own) + multiset(others)
    requires (forall e :: e in own ==> e.source == source) && (forall e :: e in others ==> e.source != source)
    ensures PartOf(own, all, source)
  {
    forall e ensures multiset(own)[e] == if e.source == source then multiset(all)[e] else 0 {
      assert (multiset(own)[e] > 0 <==> e in own) && (multiset(others)[e] > 0 <==> e in others);
    }
  }

  lemma {:induction false} UnionParts(a: seq<Item>, b: seq<Item>, c: seq<Item>)
    requires forall e :: e in a ==> e.source == FromStructure
    requires forall e :: e in b ==> e.source == FromLiquidity
    requires forall e :: e in c ==> e.source == FromOrderBlocks
    ensures PartOf(a, a + b + c, FromStructure) && PartOf(b, a + b + c, FromLiquidity)
            && PartOf(c, a + b + c, FromOrderBlocks)
  {
    hide PartOf;
    SourceCounts(a, b + c, a + b + c, FromStructure);
    SourceCounts(b, a + c, a + b + c, FromLiquidity);
    SourceCounts(c, a + b, a + b + c, FromOrderBlocks);
  }

  lemma {:induction false} UnionSorts(all: seq<Item>, times: seq<int>)
    requires Increasing(times) && forall e :: e in all ==> Stamped(e, times)
    ensures
      var sorted := Items.Sorted(all, Before);
      multiset(sorted) == multiset(all) && Items.NoInversions(sorted, Before) && RowWise(sorted)
  {
    hide Items.Sorted, Before, Stamped, Increasing, RowWise, Items.NoInversions, Items.Asymmetric, Items.Cotransitive;
    KeyIsAsymmetric();
    KeyIsCotransitive();
    Items.SortSorts(all, Before);
    Items.SameMembers(Items.Sorted(all, Before), all);
    SortedIsRowWise(Items.Sorted(all, Before), times);
  }

  lemma {:induction false} StreamSources(source: Source, rows: seq<nat>, times: seq<int>)
    requires RowOrdered(rows, |times|)
    ensures forall e :: e in Stream(source, rows, times) ==> e.source == source && Stamped(e, times)
    ensures InOrder(Stream(source, rows, times))
  {
  }

  lemma {:induction false} PartsInOrder(sorted: seq<Item>)
    requires RowWise(sorted)
    requires InOrder(Only(sorted, FromStructure)) && InOrder(Only(sorted, FromLiquidity))
             && InOrder(Only(sorted, FromOrderBlocks))
    ensures InOrder(sorted)
  {
    hide Only;
    forall i, j | 0 <= i < j < |sorted| ensures Ahead(sorted[i], sorted[j]) {
      if sorted[i].source == sorted[j].source {
        SameSourceAhead(sorted, sorted[i].source, i, j);
      }
    }
  }

  /** Sorting the union of the three streams gives their row-wise merge: liquidity,
      then Order Blocks, then structure on every row. Each engine's events keep their
      emission order exactly when none of its rows crosses a power of ten. */
  lemma {:induction false} UnifiedStreamIsRowWise(rs: seq<nat>, rl: seq<nat>, rb: seq<nat>, times: seq<int>)
    requires Increasing(times)
    requires RowOrdered(rs, |times|) && RowOrdered(rl, |times|) && RowOrdered(rb, |times|)
    ensures
      var a, b, c := Stream(FromStructure, rs, times), Stream(FromLiquidity, rl, times),
                      Stream(FromOrderBlocks, rb, times);
      var sorted := Items.Sorted(a + b + c, Before);
      && multiset(sorted) == multiset(a + b + c) && RowWise(sorted)
      && (Only(sorted, FromStructure) == a <==> NoCrossing(rs))
      && (Only(sorted, FromLiquidity) == b <==> NoCrossing(rl))
      && (Only(sorted, FromOrderBlocks) == c <==> NoCrossing(rb))
      && (NoCrossing(rs) && NoCrossing(rl) && NoCrossing(rb) ==> InOrder(sorted))
  {
    hide *;
    var a, b, c := Stream(FromStructure, rs, times), Stream(FromLiquidity, rl, times),
                      Stream(FromOrderBlocks, rb, times);
    var all := a + b + c;
    var sorted := Items.Sorted(all, Before);
    StreamSources(FromStructure, rs, times);
    StreamSources(FromLiquidity, rl, times);
    StreamSources(FromOrderBlocks, rb, times);
    UnionSorts(all, times);
    UnionParts(a, b, c);
    EngineKeptIff(all, sorted, FromStructure, rs, times);
    EngineKeptIff(all, sorted, FromLiquidity, rl, times);
    EngineKeptIff(all, sorted, FromOrderBlocks, rb, times);
    if NoCrossing(rs) && NoCrossing(rl) && NoCrossing(rb) {
      PartsInOrder(sorted);
    }
  }

  // ----- The three engines' streams -----

  lemma {:induction false} PoolAnnouncementsOnRow(before: seq<Q.Pool>, after: seq<Q.Pool>, index: nat, n: nat)
    requires n <= |before| == |after|
    ensures forall e :: e in Q.AnnounceAll(before, after, index, n) ==> e.row == index
  {
    if n > 0 {
      PoolAnnouncementsOnRow(before, after, index, n - 1);
    }
  }

  lemma {:induction false} LiquidityRowEvents(s: Q.Engine, row: Q.LiqRow, index: nat, cfg: Q.LiqSettings)
    ensures forall e :: e in Q.RowEvents(s, row, index, cfg) ==> e.row == index
  {
    var checked := Q.CheckedAll(s.pools, row, index, cfg);
    assert |checked| == |s.pools|;
    PoolAnnouncementsOnRow(s.pools, checked, index, |s.pools|);
  }

  /** Events of the next row keep a list in row order. */
  lemma {:induction false} RowsExtend(before: seq<nat>, more: seq<nat>, p: nat)
    requires RowOrdered(before, p) && forall k :: 0 <= k < |more| ==> more[k] == p
    ensures RowOrdered(before + more, p + 1)
  {
  }

  lemma {:induction false} LiquidityEventsInRowOrder(rows: seq<Q.LiqRow>, cfg: Q.LiqSettings, p: nat)
    requires p <= |rows|
    ensures RowOrdered(LiquidityRows(Q.EventsUpTo(rows, cfg, p)), p)
  {
    hide Q.RowEvents, Q.EngineAt, RowOrdered;
    if p == 0 {
      RowsOfNothing();
      assert LiquidityRows([]) == [];
    } else {
      LiquidityEventsInRowOrder(rows, cfg, p - 1);
      var before, more := Q.EventsUpTo(rows, cfg, p - 1),
                          Q.RowEvents(Q.EngineAt(rows, cfg, p - 1), rows[p - 1], p - 1, cfg);
      LiquidityRowEvents(Q.EngineAt(rows, cfg, p - 1), rows[p - 1], p - 1, cfg);
      RowsExtend(LiquidityRows(before), LiquidityRows(more), p - 1);
      assert LiquidityRows(before + more) == LiquidityRows(before) + LiquidityRows(more);
    }
  }

  lemma {:induction false} RowsOfNothing()
    ensures RowOrdered([], 0)
  {
  }

  function LiquidityRows(events: seq<Q.LiqEvent>): seq<nat> {
    seq(|events|, i requires 0 <= i < |events| => events[i].row)
  }

  lemma {:induction false} BlockAnnouncementsOnRow(before: seq<O.Block>, after: seq<O.Block>, position: nat, n: nat)
    requires n <= |before| == |after|
    ensures forall e :: e in O.AnnounceAll(before, after, position, n) ==> e.row == position
  {
    if n > 0 {
      BlockAnnouncementsOnRow(before, after, position, n - 1);
    }
  }

  lemma {:induction false} RowEventsOnRow(s: O.Engine, rows: seq<O.ObRow>, position: nat, cfg: O.Settings)
    requires position < |rows|
    ensures forall e :: e in O.RowEvents(s, rows, position, cfg) ==> e.row == position
  {
    var stage := O.Survey(s, rows, position, cfg);
    hide O.Survey;
    BlockAnnouncementsOnRow(s.blocks, stage.priced, position, |s.blocks|);
    BlockAnnouncementsOnRow(stage.priced, stage.cascaded, position, |s.blocks|);
  }

  lemma {:induction false} BlockEventsInRowOrder(rows: seq<O.ObRow>, cfg: O.Settings, p: nat)
    requires p <= |rows|
    ensures RowOrdered(BlockRows(O.EventsUpTo(rows, cfg, p)), p)
  {
    hide O.RowEvents, O.EngineAt, RowOrdered;
    if p == 0 {
      RowsOfNothing();
      assert BlockRows([]) == [];
    } else {
      BlockEventsInRowOrder(rows, cfg, p - 1);
      var before, more := O.EventsUpTo(rows, cfg, p - 1), O.RowEvents(O.EngineAt(rows, cfg, p - 1), rows, p - 1, cfg);
      RowEventsOnRow(O.EngineAt(rows, cfg, p - 1), rows, p - 1, cfg);
      RowsExtend(BlockRows(before), BlockRows(more), p - 1);
      assert BlockRows(before + more) == BlockRows(before) + BlockRows(more);
    }
  }

  function BlockRows(events: seq<O.ObEvent>): seq<nat> {
    seq(|events|, i requires 0 <= i < |events| => events[i].row)
  }

  function StructureRows(events: seq<L.LogEvent>): seq<nat> {
    seq(|events|, i requires 0 <= i < |events| => events[i].row)
  }

  lemma {:induction false} StructureEventsInRowOrder(outs: seq<S.OutRow>)
    ensures RowOrdered(StructureRows(L.Logged(outs, |outs|)), |outs|)
  {
    L.LogsAreNumbered(outs, |outs|);
  }

  /** The events of one analysis: structure, liquidity and Order Blocks, as they are
      handed to the sort. */
  function Collected(liq: seq<Q.LiqRow>, liqCfg: Q.LiqSettings, ob: seq<O.ObRow>, obCfg: O.Settings,
                     outs: seq<S.OutRow>, times: seq<int>): (all: seq<seq<Item>>)
    requires |liq| == |ob| == |outs| == |times|
    ensures |all| == 3
  {
    LiquidityEventsInRowOrder(liq, liqCfg, |liq|);
    BlockEventsInRowOrder(ob, obCfg, |ob|);
    StructureEventsInRowOrder(outs);
    [Stream(FromStructure, StructureRows(L.Logged(outs, |outs|)), times),
     Stream(FromLiquidity, LiquidityRows(Q.EventsUpTo(liq, liqCfg, |liq|)), times),
     Stream(FromOrderBlocks, BlockRows(O.EventsUpTo(ob, obCfg, |ob|)), times)]
  }

  /** The event stream of any analysis with increasing times. */
  lemma {:induction false} AnalysisStreamIsRowWise(liq: seq<Q.LiqRow>, liqCfg: Q.LiqSettings, ob: seq<O.ObRow>,
                                                   obCfg: O.Settings, outs: seq<S.OutRow>, times: seq<int>)
    requires |liq| == |ob| == |outs| == |times| && Increasing(times)
    ensures
      var streams := Collected(liq, liqCfg, ob, obCfg, outs, times);
      var sorted := Items.Sorted(streams[0] + streams[1] + streams[2], Before);
      var rs := StructureRows(L.Logged(outs, |outs|));
      var rl, rb := LiquidityRows(Q.EventsUpTo(liq, liqCfg, |liq|)), BlockRows(O.EventsUpTo(ob, obCfg, |ob|));
      && RowWise(sorted) && NoCrossing(rs)
      && Only(sorted, FromStructure) == streams[0]
      && (Only(sorted, FromLiquidity) == streams[1] <==> NoCrossing(rl))
      && (Only(sorted, FromOrderBlocks) == streams[2] <==> NoCrossing(rb))
      && (NoCrossing(rl) && NoCrossing(rb) ==> InOrder(sorted))
  {
    hide Stream, Items.Sorted, Only, InOrder, RowWise, NoCrossing, Q.EventsUpTo, O.EventsUpTo, L.Logged;
    LiquidityEventsInRowOrder(liq, liqCfg, |liq|);
    BlockEventsInRowOrder(ob, obCfg, |ob|);
    StructureEventsInRowOrder(outs);
    OneARowDoesNotCross(outs);
    UnifiedStreamIsRowWise(StructureRows(L.Logged(outs, |outs|)), LiquidityRows(Q.EventsUpTo(liq, liqCfg, |liq|)),
                           BlockRows(O.EventsUpTo(ob, obCfg, |ob|)), times);
  }

  /** The structure engine emits at most one event a row. */
  lemma {:induction false} OneARowDoesNotCross(outs: seq<S.OutRow>)
    ensures NoCrossing(StructureRows(L.Logged(outs, |outs|)))
  {
    L.LogsAreNumbered(outs, |outs|);
    forall k: nat | 5 <= k ensures Pow10(k) >= 2 {
      PowersGrow(0, k);
    }
  }
}
