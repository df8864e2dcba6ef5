/** The event log tells the story of every Order Block: one creation, at most one
    confirmation and at most one end. */
module BlockLog {
  import opened Domain
  import opened OrderBlocks
  import opened OrderBlockLife
  import F = Footprints

  // ----- The events of one block -----

  /** The events of the given kinds about block `id`, in the order of the log. */
  function About(events: seq<ObEvent>, id: nat, kinds: set<ObEventKind>): seq<ObEvent> {
    if events == [] then []
    else
      var last := events[|events| - 1];
      About(events[..|events| - 1], id, kinds) + if last.block.id == id && last.kind in kinds then [last] else []
  }

  const ENDS: set<ObEventKind> := {BlockMitigated, BlockInvalidated}

  lemma {:induction false} AboutOneMore(events: seq<ObEvent>, e: ObEvent, id: nat, kinds: set<ObEventKind>)
    ensures About(events + [e], id, kinds)
            == About(events, id, kinds) + if e.block.id == id && e.kind in kinds then [e] else []
  {
    assert (events + [e])[..|events|] == events;
  }

  lemma {:induction false} AboutAppends(a: seq<ObEvent>, b: seq<ObEvent>, id: nat, kinds: set<ObEventKind>)
    ensures About(a + b, id, kinds) == About(a, id, kinds) + About(b, id, kinds)
  {
    hide About;
    if b == [] {
      AboutNothing(id, kinds);
      assert a + b == a;
    } else {
      var front, last := b[..|b| - 1], b[|b| - 1];
      AboutAppends(a, front, id, kinds);
      AboutOneMore(front, last, id, kinds);
      AboutOneMore(a + front, last, id, kinds);
      assert b == front + [last] && a + b == a + front + [last];
    }
  }

  lemma {:induction false} AboutOne(e: ObEvent, id: nat, kinds: set<ObEventKind>)
    ensures About([e], id, kinds) == if e.block.id == id && e.kind in kinds then [e] else []
  {
    assert [e][..0] == [];
  }

  /** An announcement is one end of its own block, or nothing. */
  lemma {:induction false} AboutAnnounced(before: Block, after: Block, position: nat, id: nat, kinds: set<ObEventKind>)
    ensures
      var events := Announce(before, after, position);
      && (after.shape.id == id && ENDS <= kinds ==> About(events, id, kinds) == events)
      && (after.shape.id != id || kinds !! ENDS ==> About(events, id, kinds) == [])
  {
    var events := Announce(before, after, position);
    if events != [] {
      AboutOne(events[0], id, kinds);
      assert events == [events[0]] && events[0].kind in ENDS && events[0].block == after.shape;
    }
  }

  lemma {:induction false} AboutAll(before: seq<Block>, after: seq<Block>, position: nat, n: nat, id: nat,
                                    kinds: set<ObEventKind>)
    requires n <= |before| == |after| && Numbered(after) && (kinds == ENDS || kinds !! ENDS)
    ensures About(AnnounceAll(before, after, position, n), id, kinds)
            == if kinds == ENDS && 1 <= id <= n then Announce(before[id - 1], after[id - 1], position) else []
  {
    hide Announce, About;
    if n == 0 {
      AboutNothing(id, kinds);
    } else {
      AboutAll(before, after, position, n - 1, id, kinds);
      AboutAnnounced(before[n - 1], after[n - 1], position, id, kinds);
      AboutAppends(AnnounceAll(before, after, position, n - 1), Announce(before[n - 1], after[n - 1], position),
                   id, kinds);
    }
  }

  // ----- One row -----

  lemma {:induction false} StagesNumbered(s: Engine, rows: seq<ObRow>, position: nat, cfg: Settings)
    requires position < |rows| && Numbered(s.blocks)
    ensures Numbered(Survey(s, rows, position, cfg).priced) && Numbered(Survey(s, rows, position, cfg).cascaded)
  {
    var stage := Survey(s, rows, position, cfg);
    forall i | 0 <= i < |s.blocks| ensures stage.priced[i].shape.id == i + 1 && stage.cascaded[i].shape.id == i + 1 {
      ShapesStay(s, rows, position, cfg, i);
    }
  }

  /** What a row's events about the blocks already there say of block `id`. */
  function EndsAndConfirmation(blocks: seq<Block>, stage: Stage, position: nat, id: nat, kinds: set<ObEventKind>)
      : seq<ObEvent>
    requires |stage.priced| == |stage.cascaded| == |blocks|
    requires stage.promoted.Some? ==> stage.promoted.value < |blocks|
  {
    (if kinds == ENDS && 1 <= id <= |blocks|
     then Announce(blocks[id - 1], stage.priced[id - 1], position)
          + Announce(stage.priced[id - 1], stage.cascaded[id - 1], position) else [])
    + if stage.promoted.Some? && id == stage.promoted.value + 1 && BlockConfirmed in kinds
      then [Confirmation(stage.cascaded[stage.promoted.value].shape, position)] else []
  }

  lemma {:induction false} AboutExisting(blocks: seq<Block>, stage: Stage, position: nat, id: nat,
                                         kinds: set<ObEventKind>)
    requires |stage.priced| == |stage.cascaded| == |blocks| && Numbered(stage.priced) && Numbered(stage.cascaded)
    requires stage.promoted.Some? ==> stage.promoted.value < |blocks|
    requires kinds == ENDS || kinds !! ENDS
    ensures About(ExistingEvents(blocks, stage, position), id, kinds)
            == EndsAndConfirmation(blocks, stage, position, id, kinds)
  {
    hide Announce, About, AnnounceAll;
    var first := AnnounceAll(blocks, stage.priced, position, |blocks|);
    var second := AnnounceAll(stage.priced, stage.cascaded, position, |blocks|);
    AboutAll(blocks, stage.priced, position, |blocks|, id, kinds);
    AboutAll(stage.priced, stage.cascaded, position, |blocks|, id, kinds);
    AboutAppends(first, second, id, kinds);
    if stage.promoted.Some? {
      AboutOneMore(first + second, Confirmation(stage.cascaded[stage.promoted.value].shape, position), id, kinds);
    } else {
      assert first + second + [] == first + second;
    }
  }

  lemma {:induction false} AboutRow(s: Engine, rows: seq<ObRow>, position: nat, cfg: Settings, id: nat,
                                    kinds: set<ObEventKind>)
    requires position < |rows| && Numbered(s.blocks) && (kinds == ENDS || kinds !! ENDS)
    ensures
      var stage := Survey(s, rows, position, cfg);
      About(RowEvents(s, rows, position, cfg), id, kinds)
      == EndsAndConfirmation(s.blocks, stage, position, id, kinds)
         + About(BirthEvents(Birth(stage, rows, position, cfg), position), id, kinds)
  {
    hide Survey, About, ExistingEvents, EndsAndConfirmation, Birth, BirthEvents, Numbered;
    var stage := Survey(s, rows, position, cfg);
    StagesNumbered(s, rows, position, cfg);
    AboutExisting(s.blocks, stage, position, id, kinds);
    AboutAppends(ExistingEvents(s.blocks, stage, position), BirthEvents(Birth(stage, rows, position, cfg), position),
                 id, kinds);
  }

  lemma {:induction false} AboutNothing(id: nat, kinds: set<ObEventKind>)
    ensures About([], id, kinds) == []
  {
  }

  /** A birth is one creation, of the block that follows the others. */
  lemma {:induction false} AboutBirth(s: Engine, rows: seq<ObRow>, position: nat, cfg: Settings, id: nat,
                                      kinds: set<ObEventKind>)
    requires position < |rows|
    ensures
      var after := Process(s, rows, position, cfg).blocks;
      var born := Birth(Survey(s, rows, position, cfg), rows, position, cfg);
      About(BirthEvents(born, position), id, kinds)
      == if |after| > |s.blocks| && id == |s.blocks| + 1 && BlockCreated in kinds
         then [Creation(after[|s.blocks|].shape, position)] else []
  {
    hide Survey, Born;
    var born := Birth(Survey(s, rows, position, cfg), rows, position, cfg);
    if born.Some? {
      BornIsNumbered(rows, position, cfg, |s.blocks| + 1);
      AboutOne(Creation(born.value.shape, position), id, kinds);
    }
  }

  lemma {:induction false} BornIsNumbered(rows: seq<ObRow>, position: nat, cfg: Settings, id: nat)
    requires position < |rows|
    ensures var born := Born(rows, position, cfg, id); born.Some? ==> born.value.shape.id == id
  {
    hide StrongBody, SweptBetween, Displacement, SourceCandle;
  }

  /** The event a fate leaves in the log; expiry leaves none. */
  function EventOf(s: Shape, position: nat, fate: Fate): seq<ObEvent> {
    match fate
    case Pierce(close) => [ObEvent(BlockInvalidated, position, Opposite(s.dir), close, s, None)]
    case Touch(price) => [ObEvent(BlockMitigated, position, s.dir, Some(price), s, Some(Percentage(s, price)))]
    case Cascade(close) => [ObEvent(BlockInvalidated, position, Opposite(s.dir), close, s, None)]
    case Expiry => []
  }

  function EventsOn(s: Shape, rows: seq<ObRow>, position: nat, cfg: Settings): seq<ObEvent>
    requires position < |rows|
  {
    var fate := FateOn(s, rows[position], position, cfg);
    if fate.None? then [] else EventOf(s, position, fate.value)
  }

  /** A row announces the fate of an active block, and nothing about one that has ended. */
  lemma {:induction false} AnnouncedByFate(b: Block, row: ObRow, position: nat, cfg: Settings)
    requires Consistent(b.life) && b.shape.created < position
    ensures
      var priced := Priced(b, row, position, Clearance(cfg));
      var fate := FateOn(b.shape, row, position, cfg);
      Announce(b, priced, position) + Announce(priced, Cascaded(priced, row, position), position)
      == if b.life.status != ActiveBlock || fate.None? then [] else EventOf(b.shape, position, fate.value)
  {
    hide Pierced, Touched, EntryPrice, Depth, Percentage, Cascades;
  }

  // ----- Whole runs -----

  /** The events about the end of a block, as its first fate dictates them. */
  function FatedEvents(s: Shape, rows: seq<ObRow>, cfg: Settings, n: nat): seq<ObEvent>
    requires s.created < n <= |rows|
  {
    var first := FirstFate(s, rows, cfg, s.created + 1, n);
    if first.None? then [] else EventsOn(s, rows, first.value, cfg)
  }

  lemma {:induction false} FatedEventsExtend(s: Shape, rows: seq<ObRow>, cfg: Settings, n: nat)
    requires s.created < n < |rows|
    ensures FatedEvents(s, rows, cfg, n + 1)
            == if FirstFate(s, rows, cfg, s.created + 1, n).Some? then FatedEvents(s, rows, cfg, n)
               else EventsOn(s, rows, n, cfg)
  {
    hide FateOn, EventOf;
    FirstFateExtends(s, rows, cfg, s.created + 1, n);
  }

  lemma {:induction false} StagesOfBlock(s: Engine, rows: seq<ObRow>, position: nat, cfg: Settings, i: nat)
    requires position < |rows| && i < |s.blocks|
    ensures
      var stage := Survey(s, rows, position, cfg);
      && stage.priced[i] == Priced(s.blocks[i], rows[position], position, Clearance(cfg))
      && stage.cascaded[i] == Cascaded(stage.priced[i], rows[position], position)
  {
    hide Priced, Cascaded;
  }

  /** What a row adds about the end of a block. */
  lemma {:induction false} EndsOfRow(s: Engine, rows: seq<ObRow>, position: nat, cfg: Settings, i: nat)
    requires position < |rows| && Numbered(s.blocks) && i < |s.blocks|
    requires Consistent(s.blocks[i].life) && s.blocks[i].shape.created < position
    ensures About(RowEvents(s, rows, position, cfg), i + 1, ENDS)
            == if s.blocks[i].life.status == ActiveBlock then EventsOn(s.blocks[i].shape, rows, position, cfg) else []
  {
    hide Process, Survey, RowEvents, Birth, BirthEvents, Announce, About, EventOf, FateOn, Priced, Cascaded, Numbered;
    StagesOfBlock(s, rows, position, cfg, i);
    AboutRow(s, rows, position, cfg, i + 1, ENDS);
    AboutBirth(s, rows, position, cfg, i + 1, ENDS);
    AnnouncedByFate(s.blocks[i], rows[position], position, cfg);
  }

  lemma {:induction false} LogExtends(rows: seq<ObRow>, cfg: Settings, n: nat, id: nat, kinds: set<ObEventKind>)
    requires 0 < n <= |rows|
    ensures About(EventsUpTo(rows, cfg, n), id, kinds)
            == About(EventsUpTo(rows, cfg, n - 1), id, kinds)
               + About(RowEvents(EngineAt(rows, cfg, n - 1), rows, n - 1, cfg), id, kinds)
  {
    hide About, RowEvents, EngineAt;
    AboutAppends(EventsUpTo(rows, cfg, n - 1), RowEvents(EngineAt(rows, cfg, n - 1), rows, n - 1, cfg), id, kinds);
  }

  /** The log says nothing about blocks that do not exist. */
  lemma {:induction false} NothingAboutOthers(rows: seq<ObRow>, cfg: Settings, n: nat, id: nat, kinds: set<ObEventKind>)
    requires n <= |rows| && id > |EngineAt(rows, cfg, n).blocks| && (kinds == ENDS || kinds !! ENDS)
    ensures About(EventsUpTo(rows, cfg, n), id, kinds) == []
  {
    hide Process, Survey, RowEvents, About, Birth, BirthEvents, Announce;
    if n == 0 {
      AboutNothing(id, kinds);
    } else {
      var s := EngineAt(rows, cfg, n - 1);
      RunsAreNumbered(rows, cfg, n - 1);
      NewbornRow(s, rows, n - 1, cfg);
      NothingAboutOthers(rows, cfg, n - 1, id, kinds);
      LogExtends(rows, cfg, n, id, kinds);
      AboutRow(s, rows, n - 1, cfg, id, kinds);
      AboutBirth(s, rows, n - 1, cfg, id, kinds);
    }
  }

  /** The log of a block grows by its fate while it has none, and by nothing after. */
  lemma {:induction false} EndsExtend(rows: seq<ObRow>, cfg: Settings, n: nat, i: nat)
    requires n < |rows| && i < |EngineAt(rows, cfg, n).blocks|
    requires
      var s := EngineAt(rows, cfg, n).blocks[i].shape;
      s.created < n && About(EventsUpTo(rows, cfg, n), i + 1, ENDS) == FatedEvents(s, rows, cfg, n)
    ensures
      var s := EngineAt(rows, cfg, n).blocks[i].shape;
      About(EventsUpTo(rows, cfg, n + 1), i + 1, ENDS) == FatedEvents(s, rows, cfg, n + 1)
  {
    hide EngineAt, RowEvents, About, EventsUpTo, FirstFate, EventsOn, Numbered, Fated, IsActive;
    var s := EngineAt(rows, cfg, n);
    RunsAreNumbered(rows, cfg, n);
    LogExtends(rows, cfg, n + 1, i + 1, ENDS);
    LivesAreFated(rows, cfg, n, i);
    ActiveUntilFate(rows, cfg, n, i);
    ActiveIsStatus(s.blocks[i].life);
    EndsOfRow(s, rows, n, cfg, i);
    FatedEventsExtend(s.blocks[i].shape, rows, cfg, n);
  }

  lemma {:induction false} ActiveIsStatus(l: Life)
    requires Consistent(l)
    ensures IsActive(l) <==> l.status == ActiveBlock
  {
  }

  lemma {:induction false} NewbornHasNoEnd(rows: seq<ObRow>, cfg: Settings, n: nat)
    requires n < |rows| && |EngineAt(rows, cfg, n + 1).blocks| > |EngineAt(rows, cfg, n).blocks|
    ensures About(EventsUpTo(rows, cfg, n + 1), |EngineAt(rows, cfg, n).blocks| + 1, ENDS) == []
  {
    hide Process, Survey, RowEvents, EngineAt, About, EventsUpTo, Birth, BirthEvents, Announce, Numbered;
    var s := EngineAt(rows, cfg, n);
    RunsAreNumbered(rows, cfg, n);
    LogExtends(rows, cfg, n + 1, |s.blocks| + 1, ENDS);
    NothingAboutOthers(rows, cfg, n, |s.blocks| + 1, ENDS);
    AboutRow(s, rows, n, cfg, |s.blocks| + 1, ENDS);
    AboutBirth(s, rows, n, cfg, |s.blocks| + 1, ENDS);
  }

  /** The mitigations and invalidations of a block in the log of any run are exactly
      those of its first fate: one event at most. */
  lemma {:induction false} LoggedEndIsFated(rows: seq<ObRow>, cfg: Settings, n: nat, i: nat)
    requires n <= |rows| && i < |EngineAt(rows, cfg, n).blocks|
    ensures
      var s := EngineAt(rows, cfg, n).blocks[i].shape;
      s.created < n && About(EventsUpTo(rows, cfg, n), i + 1, ENDS) == FatedEvents(s, rows, cfg, n)
  {
    hide Process, Survey, About, EventsUpTo, EventsOn, FateOn;
    assert EngineAt(rows, cfg, 0).blocks == [];
    var s := EngineAt(rows, cfg, n - 1);
    NewbornRow(s, rows, n - 1, cfg);
    NextRow(rows, cfg, n);
    hide EngineAt;
    if i < |s.blocks| {
      LoggedEndIsFated(rows, cfg, n - 1, i);
      ShapesStay(s, rows, n - 1, cfg, i);
      EndsExtend(rows, cfg, n - 1, i);
    } else {
      NewbornHasNoEnd(rows, cfg, n - 1);
    }
  }

  /** The confirmation a block's life calls for. */
  function BackedEvents(b: Block): seq<ObEvent> {
    if b.life.confirmedIndex.Some? then [Confirmation(b.shape, b.life.confirmedIndex.value)] else []
  }

  const CONFIRMATIONS: set<ObEventKind> := {BlockConfirmed}

  const CREATIONS: set<ObEventKind> := {BlockCreated}

  lemma {:induction false} ConfirmationsOfRow(s: Engine, rows: seq<ObRow>, position: nat, cfg: Settings, i: nat)
    requires position < |rows| && Numbered(s.blocks) && i < |s.blocks|
    ensures About(RowEvents(s, rows, position, cfg), i + 1, CONFIRMATIONS)
            == if Survey(s, rows, position, cfg).promoted == Some(i)
               then [Confirmation(s.blocks[i].shape, position)] else []
    ensures About(RowEvents(s, rows, position, cfg), i + 1, CREATIONS) == []
  {
    hide Survey, RowEvents, Birth, BirthEvents, Announce, About;
    ShapesStay(s, rows, position, cfg, i);
    AboutRow(s, rows, position, cfg, i + 1, CONFIRMATIONS);
    AboutBirth(s, rows, position, cfg, i + 1, CONFIRMATIONS);
    AboutRow(s, rows, position, cfg, i + 1, CREATIONS);
    AboutBirth(s, rows, position, cfg, i + 1, CREATIONS);
  }

  /** Every block is created once in the log, and confirmed there exactly as it
      records. */
  lemma {:induction false} LoggedOriginIsRecorded(rows: seq<ObRow>, cfg: Settings, n: nat, i: nat)
    requires n <= |rows| && i < |EngineAt(rows, cfg, n).blocks|
    ensures
      var b := EngineAt(rows, cfg, n).blocks[i];
      && About(EventsUpTo(rows, cfg, n), i + 1, CREATIONS) == [Creation(b.shape, b.shape.created)]
      && About(EventsUpTo(rows, cfg, n), i + 1, CONFIRMATIONS) == BackedEvents(b)
  {
    hide Process, Survey, RowEvents, About, EventsUpTo, Birth, BirthEvents, Announce;
    var s := EngineAt(rows, cfg, n - 1);
    NewbornRow(s, rows, n - 1, cfg);
    NextRow(rows, cfg, n);
    RunsAreNumbered(rows, cfg, n - 1);
    LogExtends(rows, cfg, n, i + 1, CREATIONS);
    LogExtends(rows, cfg, n, i + 1, CONFIRMATIONS);
    hide EngineAt;
    if i < |s.blocks| {
      LoggedOriginIsRecorded(rows, cfg, n - 1, i);
      ShapesStay(s, rows, n - 1, cfg, i);
      F.ProvisionalIsUnconfirmed(rows, cfg, n - 1, i);
      F.BackingStep(s, rows, n - 1, cfg, i);
      ConfirmationsOfRow(s, rows, n - 1, cfg, i);
    } else {
      NewbornIsLogged(s, rows, n - 1, cfg);
      NothingAboutOthers(rows, cfg, n - 1, i + 1, CREATIONS);
      NothingAboutOthers(rows, cfg, n - 1, i + 1, CONFIRMATIONS);
    }
  }

  lemma {:induction false} NewbornIsLogged(s: Engine, rows: seq<ObRow>, position: nat, cfg: Settings)
    requires position < |rows| && Numbered(s.blocks)
    requires |Process(s, rows, position, cfg).blocks| > |s.blocks|
    ensures
      var events, id := RowEvents(s, rows, position, cfg), |s.blocks| + 1;
      && About(events, id, CREATIONS) == [Creation(Process(s, rows, position, cfg).blocks[|s.blocks|].shape, position)]
      && About(events, id, CONFIRMATIONS) == []
  {
    hide Process, Survey, RowEvents, About, Birth, BirthEvents, Announce;
    AboutRow(s, rows, position, cfg, |s.blocks| + 1, CREATIONS);
    AboutBirth(s, rows, position, cfg, |s.blocks| + 1, CREATIONS);
    AboutRow(s, rows, position, cfg, |s.blocks| + 1, CONFIRMATIONS);
    AboutBirth(s, rows, position, cfg, |s.blocks| + 1, CONFIRMATIONS);
  }
}
