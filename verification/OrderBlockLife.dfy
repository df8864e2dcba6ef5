/** The life of one block is decided by the first row that touches it. */
module OrderBlockLife {
  import opened Domain
  import opened OrderBlocks

  /** What a row can do to a block that is still active. */
  datatype Fate = Pierce(close: Option<real>) | Touch(price: real) | Cascade(close: Option<real>) | Expiry

  /** In order of priority: price invalidation, touch, MSS cascade, expiry. */
  function FateOn(s: Shape, row: ObRow, position: nat, cfg: Settings): Option<Fate> {
    if position <= s.created then None
    else if HasPrices(row) && Pierced(s, row, Clearance(cfg)) then Some(Pierce(row.close))
    else if HasPrices(row) && Touched(s, row) then Some(Touch(EntryPrice(s, row)))
    else if Cascades(s, row) then Some(Cascade(row.close))
    else if cfg.maxAge.Some? && position - s.created >= cfg.maxAge.value then Some(Expiry)
    else None
  }

  function Meet(b: Block, position: nat, fate: Fate): Block {
    match fate
    case Pierce(close) => MarkInvalidated(b, position, close, PricePenetration)
    case Touch(price) => MarkMitigated(b, position, price)
    case Cascade(close) => MarkInvalidated(b, position, close, MssInvalidation)
    case Expiry => MarkExpired(b, position)
  }

  /** The first row of `[from, end)` with a fate for the block. */
  function FirstFate(s: Shape, rows: seq<ObRow>, cfg: Settings, from: nat, end: nat): (first: Option<nat>)
    requires from <= end <= |rows|
    ensures first.Some? ==> from <= first.value < end && FateOn(s, rows[first.value], first.value, cfg).Some?
    ensures forall i :: from <= i < (if first.Some? then first.value else end) ==> FateOn(s, rows[i], i, cfg).None?
    decreases end - from
  {
    if from == end then None
    else if FateOn(s, rows[from], from, cfg).Some? then Some(from)
    else FirstFate(s, rows, cfg, from + 1, end)
  }

  /** The life the declarative reading gives a block after `n` rows. */
  function Fated(s: Shape, rows: seq<ObRow>, cfg: Settings, n: nat): Life
    requires s.created < n <= |rows|
  {
    var first := FirstFate(s, rows, cfg, s.created + 1, n);
    var newborn := Block(s, Newborn(Provisional));
    if first.None? then newborn.life
    else Meet(newborn, first.value, FateOn(s, rows[first.value], first.value, cfg).value).life
  }

  /** A life with its confirmation left out: promotion never affects the rest. */
  function Bare(l: Life): Life {
    l.(standing := Provisional, confirmedBy := None, confirmedIndex := None)
  }

  /** Status and flags say the same thing. */
  predicate Consistent(l: Life) {
    && (l.mitigated <==> l.status == MitigatedBlock)
    && (l.invalidated <==> l.status == InvalidatedBlock)
    && (l.expired <==> l.status == ExpiredBlock)
  }

  // ----- One row -----

  function Evolved(b: Block, row: ObRow, position: nat, cfg: Settings): Block {
    Aged(Cascaded(Priced(b, row, position, Clearance(cfg)), row, position), position, cfg.maxAge)
  }

  lemma {:induction false} EvolvedByFate(b: Block, row: ObRow, position: nat, cfg: Settings)
    requires Consistent(b.life) && b.shape.created < position
    ensures
      var fate := FateOn(b.shape, row, position, cfg);
      Evolved(b, row, position, cfg)
      == if b.life.status != ActiveBlock || fate.None? then b else Meet(b, position, fate.value)
  {
  }

  lemma {:induction false} FateIgnoresConfirmation(b: Block, c: Block, position: nat, fate: Fate)
    requires b.shape == c.shape && Bare(b.life) == Bare(c.life)
    ensures Bare(Meet(b, position, fate).life) == Bare(Meet(c, position, fate).life)
    ensures Consistent(b.life) && b.life.status == ActiveBlock ==> Consistent(Meet(b, position, fate).life)
  {
  }

  /** What one row does to block `i`: its fate, if it was active, and nothing else
      but a possible confirmation. */
  lemma {:induction false} BlockStep(s: Engine, rows: seq<ObRow>, position: nat, cfg: Settings, i: nat)
    requires position < |rows| && i < |s.blocks| && Consistent(s.blocks[i].life) && s.blocks[i].shape.created < position
    ensures
      var b, after := s.blocks[i], Survey(s, rows, position, cfg).aged[i];
      var fate := FateOn(b.shape, rows[position], position, cfg);
      && after.shape == b.shape && Consistent(after.life)
      && Bare(after.life)
         == Bare(if b.life.status != ActiveBlock || fate.None? then b.life else Meet(b, position, fate.value).life)
      && (if Survey(s, rows, position, cfg).promoted == Some(i)
          then after.life.standing == Confirmed && after.life.confirmedIndex == Some(position)
          else after.life.standing == b.life.standing && after.life.confirmedIndex == b.life.confirmedIndex)
  {
    var b := s.blocks[i];
    var stage := Survey(s, rows, position, cfg);
    EvolvedByFate(b, rows[position], position, cfg);
    var plain := Cascaded(Priced(b, rows[position], position, Clearance(cfg)), rows[position], position);
    assert stage.cascaded[i] == plain;
    assert stage.aged[i] == Aged(stage.confirmed[i], position, cfg.maxAge);
    if stage.promoted == Some(i) {
      assert stage.confirmed[i] == MarkConfirmed(plain, position, SourceId(CHoCH, position));
    } else {
      assert stage.confirmed[i] == plain;
    }
  }

  lemma {:induction false} NewbornRow(s: Engine, rows: seq<ObRow>, position: nat, cfg: Settings)
    requires position < |rows|
    ensures
      var stage, next := Survey(s, rows, position, cfg), Process(s, rows, position, cfg);
      && |s.blocks| <= |next.blocks| <= |s.blocks| + 1
      && (forall i :: 0 <= i < |s.blocks| ==> next.blocks[i] == stage.aged[i])
      && (|next.blocks| > |s.blocks| ==>
            var b := next.blocks[|s.blocks|];
            && !stage.skip && Some(b) == Born(rows, position, cfg, |stage.aged| + 1)
            && b.shape.created == position && b.shape.source.row == position
            && Some(b.shape.source.kind) == rows[position].event && Some(b.shape.dir) == rows[position].dir
            && b.life == Newborn(if rows[position].event == Some(MSS) then Provisional else Confirmed))
      && next.pending
         == (if |next.blocks| > |s.blocks| && rows[position].event == Some(MSS) then Some(position) else stage.pending)
  {
    hide Survey;
  }

  // ----- Whole runs -----

  lemma {:induction false} FirstFateExtends(s: Shape, rows: seq<ObRow>, cfg: Settings, from: nat, end: nat)
    requires from <= end < |rows|
    ensures
      var before := FirstFate(s, rows, cfg, from, end);
      FirstFate(s, rows, cfg, from, end + 1)
      == if before.Some? then before else if FateOn(s, rows[end], end, cfg).Some? then Some(end) else None
    decreases end - from
  {
    hide FateOn;
    if from < end && FateOn(s, rows[from], from, cfg).None? {
      FirstFateExtends(s, rows, cfg, from + 1, end);
    }
  }

  lemma {:induction false} FatedStep(b: Block, rows: seq<ObRow>, cfg: Settings, n: nat, after: Block)
    requires b.shape.created < n < |rows| && after.shape == b.shape
    requires Bare(b.life) == Fated(b.shape, rows, cfg, n)
    requires
      var fate := FateOn(b.shape, rows[n], n, cfg);
      Bare(after.life)
      == Bare(if b.life.status != ActiveBlock || fate.None? then b.life else Meet(b, n, fate.value).life)
    ensures Bare(after.life) == Fated(b.shape, rows, cfg, n + 1)
  {
    hide FateOn;
    FirstFateExtends(b.shape, rows, cfg, b.shape.created + 1, n);
    var first, fate := FirstFate(b.shape, rows, cfg, b.shape.created + 1, n), FateOn(b.shape, rows[n], n, cfg);
    if first.None? && fate.Some? {
      FateIgnoresConfirmation(b, Block(b.shape, Newborn(Provisional)), n, fate.value);
    }
  }

  predicate LivesAsFated(b: Block, rows: seq<ObRow>, cfg: Settings, n: nat)
    requires n <= |rows|
  {
    b.shape.created < n && Consistent(b.life) && Bare(b.life) == Fated(b.shape, rows, cfg, n)
  }

  lemma {:induction false} SurvivesRow(s: Engine, rows: seq<ObRow>, position: nat, cfg: Settings, i: nat)
    requires position < |rows| && i < |s.blocks| && LivesAsFated(s.blocks[i], rows, cfg, position)
    ensures LivesAsFated(Survey(s, rows, position, cfg).aged[i], rows, cfg, position + 1)
  {
    BlockStep(s, rows, position, cfg, i);
    FatedStep(s.blocks[i], rows, cfg, position, Survey(s, rows, position, cfg).aged[i]);
  }

  lemma {:induction false} NewbornLives(b: Block, rows: seq<ObRow>, cfg: Settings, position: nat, standing: Standing)
    requires position < |rows| && b.shape.created == position && b.life == Newborn(standing)
    ensures LivesAsFated(b, rows, cfg, position + 1)
  {
  }

  /** Every block of every run lives the life its first fate dictates. */
  lemma {:induction false} LivesAreFated(rows: seq<ObRow>, cfg: Settings, n: nat, i: nat)
    requires n <= |rows| && i < |EngineAt(rows, cfg, n).blocks|
    ensures LivesAsFated(EngineAt(rows, cfg, n).blocks[i], rows, cfg, n)
  {
    hide Survey, Process, LivesAsFated, Born;
    assert EngineAt(rows, cfg, 0).blocks == [];
    var s := EngineAt(rows, cfg, n - 1);
    assert EngineAt(rows, cfg, n) == Process(s, rows, n - 1, cfg);
    NewbornRow(s, rows, n - 1, cfg);
    if i < |s.blocks| {
      LivesAreFated(rows, cfg, n - 1, i);
      SurvivesRow(s, rows, n - 1, cfg, i);
    } else {
      NewbornLives(EngineAt(rows, cfg, n).blocks[i], rows, cfg, n - 1,
                   if rows[n - 1].event == Some(MSS) then Provisional else Confirmed);
    }
  }

  /** The strategy's retracement test. */
  predicate Retraced(l: Life) { l.mitigated && !l.invalidated && !l.expired }

  /** On blocks a run can produce the test is just the mitigation flag. */
  lemma {:induction false} RetracedIsMitigated(rows: seq<ObRow>, cfg: Settings, n: nat, i: nat)
    requires n <= |rows| && i < |EngineAt(rows, cfg, n).blocks|
    ensures var l := EngineAt(rows, cfg, n).blocks[i].life; Retraced(l) <==> l.mitigated
  {
    LivesAreFated(rows, cfg, n, i);
  }

  /** A block is active exactly as long as no row has had a fate for it. */
  lemma {:induction false} ActiveUntilFate(rows: seq<ObRow>, cfg: Settings, n: nat, i: nat)
    requires n <= |rows| && i < |EngineAt(rows, cfg, n).blocks|
    ensures
      var b := EngineAt(rows, cfg, n).blocks[i];
      && b.shape.created < n
      && (IsActive(b.life) <==> FirstFate(b.shape, rows, cfg, b.shape.created + 1, n).None?)
  {
    hide EngineAt, FateOn;
    LivesAreFated(rows, cfg, n, i);
  }

  /** A block is mitigated at most once: by its first fate, when that is a touch, and
      then nothing else ever ends it. */
  lemma {:induction false} MitigatedOnce(rows: seq<ObRow>, cfg: Settings, n: nat, i: nat)
    requires n <= |rows| && i < |EngineAt(rows, cfg, n).blocks|
    ensures
      var s, l := EngineAt(rows, cfg, n).blocks[i].shape, EngineAt(rows, cfg, n).blocks[i].life;
      && s.created < n
      && var first := FirstFate(s, rows, cfg, s.created + 1, n);
      && (l.mitigated <==> first.Some? && FateOn(s, rows[first.value], first.value, cfg).value.Touch?)
      && (if l.mitigated then l.mitigatedIndex == first && l.touches == 1 && !l.invalidated && !l.expired
          else l.mitigatedIndex.None? && l.touches == 0)
  {
    hide EngineAt, FateOn;
    LivesAreFated(rows, cfg, n, i);
    var l := EngineAt(rows, cfg, n).blocks[i].life;
    assert Bare(l).mitigatedIndex == l.mitigatedIndex && Bare(l).touches == l.touches;
  }

  /** One row leaves a block that has ended as it is. */
  lemma {:induction false} EndedStays(s: Engine, rows: seq<ObRow>, position: nat, cfg: Settings, i: nat)
    requires position < |rows| && i < |s.blocks| && LivesAsFated(s.blocks[i], rows, cfg, position)
    requires s.blocks[i].life.status != ActiveBlock
    ensures
      var b, after := s.blocks[i], Process(s, rows, position, cfg).blocks;
      i < |after| && after[i].shape == b.shape && Bare(after[i].life) == Bare(b.life)
  {
    hide Survey, Process, FateOn, Fated, Meet;
    NewbornRow(s, rows, position, cfg);
    BlockStep(s, rows, position, cfg, i);
  }

  lemma {:induction false} SameEnd(l: Life, m: Life)
    requires Bare(l) == Bare(m)
    ensures l.status == m.status
  {
    assert Bare(l).status == l.status && Bare(m).status == m.status;
  }

  /** A block that has left the active state never changes it again. */
  lemma {:induction false} EndsAreFinal(rows: seq<ObRow>, cfg: Settings, n: nat, m: nat, i: nat)
    requires n <= m <= |rows| && i < |EngineAt(rows, cfg, n).blocks|
    requires EngineAt(rows, cfg, n).blocks[i].life.status != ActiveBlock
    ensures i < |EngineAt(rows, cfg, m).blocks|
    ensures Bare(EngineAt(rows, cfg, m).blocks[i].life) == Bare(EngineAt(rows, cfg, n).blocks[i].life)
    ensures EngineAt(rows, cfg, m).blocks[i].shape == EngineAt(rows, cfg, n).blocks[i].shape
    decreases m
  {
    hide EngineAt, Bare, LivesAsFated;
    if n < m {
      EndsAreFinal(rows, cfg, n, m - 1, i);
      var s := EngineAt(rows, cfg, m - 1);
      SameEnd(s.blocks[i].life, EngineAt(rows, cfg, n).blocks[i].life);
      LivesAreFated(rows, cfg, m - 1, i);
      EndedStays(s, rows, m - 1, cfg, i);
      NextRow(rows, cfg, m);
    }
  }

  lemma {:induction false} NextRow(rows: seq<ObRow>, cfg: Settings, m: nat)
    requires 0 < m <= |rows|
    ensures EngineAt(rows, cfg, m) == Process(EngineAt(rows, cfg, m - 1), rows, m - 1, cfg)
  {
    hide Process;
  }
}
