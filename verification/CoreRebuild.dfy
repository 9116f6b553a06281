/** Rebuilding the projections from the log changes nothing, exactly when every tombstoned event is deleted. */
module CoreRebuild {
  import opened Json
  import opened CoreModel
  import opened CoreLedger
  import opened CoreCommands

  /** A tombstone on an event means that its current row is deleted. */
  ghost predicate BuriedAreDeleted(c: Core) {
    forall id :: EventTarget(id) in c.log.tombstones && id in c.heads.events ==> !c.heads.events[id].Live()
  }

  lemma RowIds(c: Core)
    requires LogOk(c)
    ensures forall v :: v in c.log.events ==> v.id in c.heads.events
    ensures forall v :: v in c.log.episodes ==> v.id in c.heads.episodes
  {
    forall v | v in c.log.events ensures v.id in c.heads.events { assert EventRowOk(c, v); }
    forall v | v in c.log.episodes ensures v.id in c.heads.episodes { assert EpisodeRowOk(c, v); }
  }

  lemma RebuiltEvent(c: Core, id: Id)
    requires LogOk(c)
    ensures id in EventHeads(c.log) <==> id in c.heads.events
    ensures id in c.heads.events ==> EventHeads(c.log)[id] == BuriedEvent(c.log, c.heads.events[id])
  {
    hide EventHeads;
    if id in c.heads.events {
      var v := Version(id, c.heads.events[id].revision);
      assert EventHeadOk(c, id);
      forall w | w in c.log.events && w.id == v.id ensures w.revision <= v.revision { assert EventRowOk(c, w); }
      assert EventRowOk(c, v) && IsHead(c.log.events, v);
    } else {
      RowIds(c);
    }
  }

  lemma RebuiltEpisode(c: Core, id: Id)
    requires LogOk(c)
    ensures id in EpisodeHeads(c.log) <==> id in c.heads.episodes
    ensures id in c.heads.episodes ==> EpisodeHeads(c.log)[id] == c.heads.episodes[id]
  {
    hide EpisodeHeads;
    if id in c.heads.episodes {
      var v := Version(id, c.heads.episodes[id].revision);
      assert EpisodeHeadOk(c, id);
      forall w | w in c.log.episodes && w.id == v.id ensures w.revision <= v.revision { assert EpisodeRowOk(c, w); }
      assert EpisodeRowOk(c, v) && IsHead(c.log.episodes, v) && GraveOk(c, id);
    } else {
      RowIds(c);
    }
  }

  function BuriedEvents(log: Log, events: map<Id, Event>): map<Id, Event> {
    map id | id in events :: BuriedEvent(log, events[id])
  }

  /** The projections of the log are the current rows, with the tombstoned events buried. */
  lemma RebuiltHeads(c: Core)
    requires LogOk(c)
    ensures HeadsOf(c.log) == Heads(BuriedEvents(c.log, c.heads.events), IndexOf(BuriedEvents(c.log, c.heads.events)), c.heads.episodes)
  {
    hide LogOk, EventHeads, EpisodeHeads;
    forall id ensures id in EventHeads(c.log) <==> id in c.heads.events { RebuiltEvent(c, id); }
    forall id | id in c.heads.events ensures EventHeads(c.log)[id] == BuriedEvent(c.log, c.heads.events[id]) { RebuiltEvent(c, id); }
    assert EventHeads(c.log) == BuriedEvents(c.log, c.heads.events);
    forall id ensures id in EpisodeHeads(c.log) <==> id in c.heads.episodes { RebuiltEpisode(c, id); }
    forall id | id in c.heads.episodes ensures EpisodeHeads(c.log)[id] == c.heads.episodes[id] { RebuiltEpisode(c, id); }
    assert EpisodeHeads(c.log) == c.heads.episodes;
  }

  lemma BuryingKeepsLog(c: Core, d: Core)
    requires LogOk(c) && d.log == c.log && d.nextId == c.nextId
    requires d.heads == Heads(BuriedEvents(c.log, c.heads.events), IndexOf(BuriedEvents(c.log, c.heads.events)), c.heads.episodes)
    ensures LogOk(d)
  {
    hide IndexOf;
    forall v ensures EventRowOk(d, v) { assert EventRowOk(c, v); }
    forall v ensures EpisodeRowOk(d, v) { assert EpisodeRowOk(c, v); }
    forall id ensures EventHeadOk(d, id) { assert EventHeadOk(c, id); }
    forall id ensures EpisodeHeadOk(d, id) { assert EpisodeHeadOk(c, id); }
    forall id ensures GraveOk(d, id) { assert GraveOk(c, id); }
  }

  lemma RefreshedFromNothing(c: Core, keys: set<DayKey>)
    requires c.days.ledgers == map[]
    ensures FreshBut(RefreshAll(c, keys), {})
  {
    hide EntriesOf, RevisionsOn;
    var d := RefreshAll(c, keys);
    forall key: DayKey ensures FreshAt(d, key) {
      assert LedgerOf(d, key) == LedgerOf(c, key);
    }
  }

  lemma RebuildParts(c: Core)
    ensures var d := Rebuild(c);
      && d.facts == c.facts && d.log == c.log && d.nextId == c.nextId && d.heads == HeadsOf(c.log)
      && d.days.identities == c.days.identities && d.days.coverage == c.days.coverage
      && d.days.ledgers.Keys == KeysOf(d.heads.events, d.heads.episodes) + c.days.identities.Keys
      && FreshBut(d, {})
  {
    hide HeadsOf, LedgerOf, FreshBut, KeysOf;
    var keys := KeysOf(HeadsOf(c.log).events, HeadsOf(c.log).episodes) + c.days.identities.Keys;
    RefreshedFromNothing(c.(heads := HeadsOf(c.log), days := c.days.(ledgers := map[])), keys);
  }

  lemma RebuildKeeps(c: Core)
    requires Grounded(c)
    ensures Grounded(Rebuild(c)) && Grows(c, Rebuild(c)) && FreshBut(Rebuild(c), {}) && BuriedAreDeleted(Rebuild(c))
  {
    RebuildParts(c);
    RebuiltHeads(c);
    hide HeadsOf, LedgerOf, IndexOf, FreshBut, LogOk, Rebuild, DaysOk, KeysOf;
    var d := Rebuild(c);
    BuryingKeepsLog(c, d);
    RebuiltDays(c, d);
    EventIds(c);
    OnlyMore(c, d);
  }

  lemma EventIds(c: Core)
    requires LogOk(c)
    ensures c.heads.index == IndexOf(c.heads.events)
    ensures forall id :: id in c.heads.events ==> c.heads.events[id].id == id
  {
    forall id | id in c.heads.events ensures c.heads.events[id].id == id { assert EventHeadOk(c, id); }
  }

  lemma RebuiltDays(c: Core, d: Core)
    requires DaysOk(c, {}) && d.heads.events == BuriedEvents(c.log, c.heads.events) && d.heads.episodes == c.heads.episodes
    requires d.days.identities == c.days.identities && d.days.coverage == c.days.coverage
    requires d.days.ledgers.Keys == KeysOf(d.heads.events, d.heads.episodes) + c.days.identities.Keys
    ensures DaysOk(d, {}) && d.days.ledgers.Keys == c.days.identities.Keys
  {
    forall id | id in d.heads.events ensures d.heads.events[id].Key() in c.days.identities.Keys {
      assert d.heads.events[id].Key() == c.heads.events[id].Key();
      assert c.heads.events[id].Key() in c.days.identities.Keys + {};
    }
    forall id | id in d.heads.episodes ensures d.heads.episodes[id].Key() in c.days.identities.Keys {
      assert c.heads.episodes[id].Key() in c.days.identities.Keys + {};
    }
    assert d.days.ledgers.Keys == c.days.identities.Keys;
  }

  lemma SameLedgers(c: Core, d: Core)
    requires DaysOk(c, {}) && DaysOk(d, {}) && FreshBut(c, {}) && FreshBut(d, {})
    requires d.heads == c.heads && d.log == c.log
    requires d.days.identities == c.days.identities && d.days.coverage == c.days.coverage
    ensures d.days == c.days
  {
    hide EntriesOf, RevisionsOn;
    assert c.days.ledgers.Keys == c.days.identities.Keys + {} && d.days.ledgers.Keys == c.days.identities.Keys + {};
    forall key | key in c.days.ledgers ensures d.days.ledgers[key] == c.days.ledgers[key] {
      assert FreshAt(c, key) && FreshAt(d, key);
      assert LedgerOf(c, key) == LedgerOf(d, key);
    }
    assert d.days.ledgers == c.days.ledgers;
  }

  lemma BuryingChangesNothing(c: Core)
    requires LogOk(c) && BuriedAreDeleted(c)
    ensures HeadsOf(c.log) == c.heads
  {
    hide LogOk, HeadsOf, IndexOf;
    RebuiltHeads(c);
    EventIds(c);
    NothingToBury(c);
  }

  lemma NothingToBury(c: Core)
    requires BuriedAreDeleted(c) && forall id :: id in c.heads.events ==> c.heads.events[id].id == id
    ensures BuriedEvents(c.log, c.heads.events) == c.heads.events
  {
  }

  lemma RebuildOfBuried(c: Core)
    requires Grounded(c) && FreshBut(c, {}) && BuriedAreDeleted(c)
    ensures Rebuild(c) == c
  {
    hide LogOk, LedgerOf, HeadsOf, IndexOf, DaysOk, FreshBut, Rebuild, KeysOf, BuriedAreDeleted, Grows;
    RebuildParts(c);
    RebuildKeeps(c);
    BuryingChangesNothing(c);
    SameLedgers(c, Rebuild(c));
  }

  /** Rebuild is the identity on a sound state exactly when its tombstoned events are deleted. */
  lemma RebuildIsIdentity(c: Core)
    requires Grounded(c) && FreshBut(c, {})
    ensures Rebuild(c) == c <==> BuriedAreDeleted(c)
  {
    hide Grounded, FreshBut, Rebuild;
    RebuildKeeps(c);
    if BuriedAreDeleted(c) {
      RebuildOfBuried(c);
    }
  }

  // ---- runs ----

  lemma StepSafe(c: Core, command: Command, zone: (string, string) -> string)
    requires Grounded(c)
    ensures StepKeeps(c, Step(c, command), zone)
  {
    hide LogOk, DaysOk, FreshBut, Grows, Zoned, LedgerOf, Refresh, AppendRevision, Rebuild, Deletion;
    NothingChanges(c, zone);
    match command
    case Capture(owner, space) => FactsOnly(c, Step(c, command), zone);
    case Observe(o) => FactsOnly(c, Step(c, command), zone);
    case Accept(e, now) => AddEventKeeps(c, FirstEvent(c, e, now), zone);
    case Append(id, base, changes, evidence, now) =>
      if Execute(c, command).Done? { AppendKeeps(c, id, base, changes, evidence, now, zone); }
    case Conflict(id, competing, now) =>
      if Execute(c, command).Done? {
        AppendKeeps(c, id, c.heads.events[id].revision, NoChanges.(fact := Some(ConflictFact), state := Some(InConflict)), None, now, zone);
      }
    case Undo(id, base, restore, now) =>
      if Execute(c, command).Done? {
        var target := c.log.events[Version(id, restore)];
        AppendKeeps(c, id, base,
          Changes(Some(target.title), Some(target.description), Some(target.fact), Some(target.state), Some(target.range), None),
          Some(target.evidence), now, zone);
      }
    case Group(e, now) =>
      if Execute(c, command).Done? { AddEpisodeKeeps(c, FirstEpisode(c, e, now), zone); }
    case Cover(key, state, reasons) =>
      if Execute(c, command).Done? { CoverKeeps(c, key, state, reasons, zone); }
    case ReadDay(key) =>
      if key !in c.days.ledgers { ReadKeeps(c, key, zone); }
    case Delete(source, now) =>
      if Execute(c, command).Done? { DeletionKeeps(c, source, now, zone); }
    case RebuildAll => RebuildKeeps(c);
  }

  lemma NothingChanges(c: Core, zone: (string, string) -> string)
    requires Grounded(c)
    ensures StepKeeps(c, c, zone)
  {
  }

  lemma FactsOnly(c: Core, d: Core, zone: (string, string) -> string)
    requires Grounded(c) && d.heads == c.heads && d.log == c.log && d.days == c.days && d.nextId >= c.nextId
    ensures StepKeeps(c, d, zone)
  {
    SideChangesKeepLog(c, d);
    SideChangesKeep(c, d, {});
  }

  lemma ReadKeeps(c: Core, key: DayKey, zone: (string, string) -> string)
    requires Grounded(c)
    ensures StepKeeps(c, Refresh(c, key), zone)
  {
    DueAnyway(c, key);
    FreshAnyway(c, {key.day});
    OnlyMore(c, c);
    hide LogOk, DaysOk, FreshBut, Grows, Zoned, Refresh, StepKeeps;
    WriteAndRefresh(c, c, key, zone);
  }

  lemma FreshAnyway(c: Core, days: set<Day>)
    ensures FreshBut(c, {}) ==> FreshBut(c, days)
  {
  }

  function WithInput(c: Core, key: DayKey, input: Coverage): Core {
    c.(days := c.days.(coverage := c.days.coverage[key := input]))
  }

  /** A coverage input is written: only the ledger of its key is due. */
  lemma InputWritten(c: Core, key: DayKey, input: Coverage)
    requires Grounded(c)
    ensures var d := WithInput(Identify(c, key), key, input);
      && LogOk(d) && DaysOk(d, {key}) && Grows(c, d) && (FreshBut(c, {}) ==> FreshBut(d, {key.day}))
  {
    var d := WithInput(Identify(c, key), key, input);
    assert LogOk(d) by { SideChangesKeepLog(c, d); }
    InputFreshens(c, key, input);
    InputDays(c, key, input);
    hide LogOk, FreshBut, DaysOk;
  }

  lemma InputDays(c: Core, key: DayKey, input: Coverage)
    requires DaysOk(c, {})
    ensures DaysOk(WithInput(Identify(c, key), key, input), {key})
  {
  }

  lemma InputFreshens(c: Core, key: DayKey, input: Coverage)
    ensures FreshBut(c, {}) ==> FreshBut(WithInput(Identify(c, key), key, input), {key.day})
  {
    hide EntriesOf, RevisionsOn;
    var d := WithInput(Identify(c, key), key, input);
    if FreshBut(c, {}) {
      forall k: DayKey | k.day !in {key.day} ensures FreshAt(d, k) {
        assert FreshAt(c, k) && LedgerOf(c, k) == LedgerOf(d, k);
      }
    }
  }

  lemma CoverKeeps(c: Core, key: DayKey, state: string, reasons: set<string>, zone: (string, string) -> string)
    requires Grounded(c) && SetCoverage(c, key, state, reasons).Done?
    ensures StepKeeps(c, SetCoverage(c, key, state, reasons).core, zone)
  {
    hide LogOk, DaysOk, FreshBut, Grows, Zoned, Refresh, StepKeeps;
    var input := Coverage(state, reasons, CoverageVersion(c.days, key) + 1);
    InputWritten(c, key, input);
    WriteAndRefresh(c, WithInput(Identify(c, key), key, input), key, zone);
  }

  lemma {:induction false} RunKeepsGrounded(commands: seq<Command>)
    ensures Grounded(Run(commands))
  {
    if commands != [] {
      var c := Run(commands[..|commands| - 1]);
      RunKeepsGrounded(commands[..|commands| - 1]);
      StepSafe(c, commands[|commands| - 1], (owner, space) => "UTC");
    } else {
      assert Fresh.heads.index == IndexOf(Fresh.heads.events);
    }
  }

  lemma {:induction false} RunKeepsLedgersFresh(commands: seq<Command>, zone: (string, string) -> string)
    requires Zoned(Run(commands), zone)
    ensures FreshBut(Run(commands), {})
  {
    if commands != [] {
      var c := Run(commands[..|commands| - 1]);
      RunKeepsGrounded(commands[..|commands| - 1]);
      StepSafe(c, commands[|commands| - 1], zone);
      GrowsKeepsZones(c, Run(commands), zone);
      RunKeepsLedgersFresh(commands[..|commands| - 1], zone);
    }
  }

  /** After any run whose log and ledgers use one time zone for each owner and space, rebuilding from the log gives
      back the projections, search rows, ledgers, entries and revisions that were kept step by step, exactly when no
      tombstoned event has a live current row. */
  lemma RebuildAgrees(commands: seq<Command>, zone: (string, string) -> string)
    requires Zoned(Run(commands), zone)
    ensures Rebuild(Run(commands)) == Run(commands) <==> BuriedAreDeleted(Run(commands))
  {
    RunKeepsGrounded(commands);
    RunKeepsLedgersFresh(commands, zone);
    RebuildIsIdentity(Run(commands));
  }

  /** Whatever the zones and tombstones, a second rebuild changes nothing. */
  lemma RebuildIsIdempotent(commands: seq<Command>)
    ensures Rebuild(Rebuild(Run(commands))) == Rebuild(Run(commands))
  {
    RunKeepsGrounded(commands);
    RebuildKeeps(Run(commands));
    RebuildIsIdentity(Rebuild(Run(commands)));
  }

  // ---- when tombstoned events stay deleted ----

  /** A revision of a buried event leaves it deleted: it asks for no other state, and the fact status is no conflict. */
  predicate StaysBuried(c: Core, id: Id, changes: Changes) {
    id in c.heads.events && EventTarget(id) in c.log.tombstones ==>
      changes.state.GetOr(Deleted) == Deleted && changes.fact.GetOr(c.heads.events[id].fact) != ConflictFact
  }

  /** What a caller can check before a command: a revision respects the tombstone of its event, and a deletion finds no
      event in conflict among those it leaves without evidence. */
  predicate RespectsTombstones(c: Core, command: Command) {
    Execute(c, command).Done? ==>
      match command
      case Append(id, _, changes, _, _) => StaysBuried(c, id, changes)
      case Conflict(id, _, _) => StaysBuried(c, id, NoChanges.(fact := Some(ConflictFact), state := Some(InConflict)))
      case Undo(id, _, restore, _) =>
        Version(id, restore) in c.log.events ==>
          var target := c.log.events[Version(id, restore)];
          StaysBuried(c, id, NoChanges.(fact := Some(target.fact), state := Some(target.state)))
      case Delete(source, _) => forall id :: id in Gone(c, source) ==> c.heads.events[id].fact != ConflictFact
      case _ => true
  }

  lemma ReplaceParts(c: Core, e: Event)
    requires e.id in c.heads.events
    ensures var d := ReplaceEvent(c, e);
      && d.facts == c.facts && d.log.tombstones == c.log.tombstones && d.heads.events == c.heads.events[e.id := e]
      && d.log.events == c.log.events[Version(e.id, e.revision) := e] && d.log.episodes == c.log.episodes
  {
    hide LedgerOf;
  }

  lemma AppendBuries(c: Core, id: Id, base: nat, changes: Changes, evidence: Option<seq<Evidence>>, now: int)
    requires Grounded(c) && BuriedAreDeleted(c) && AppendRevision(c, id, base, changes, evidence, now).Done?
    ensures BuriedAreDeleted(AppendRevision(c, id, base, changes, evidence, now).core) <==> StaysBuried(c, id, changes)
  {
    var e := AppendedEvent(c, id, changes, evidence, now);
    var d := ReplaceEvent(c, e);
    assert EventTarget(id) in c.log.tombstones ==> (e.Live() <==> !StaysBuried(c, id, changes));
    assert d == AppendRevision(c, id, base, changes, evidence, now).core && e.id == id;
    hide Grounded, ReplaceEvent, AppendedEvent, AppendRevision;
    ReplaceParts(c, e);
    if !StaysBuried(c, id, changes) {
      assert EventTarget(id) in d.log.tombstones && d.heads.events[id].Live();
    }
  }

  lemma DeletionParts(c: Core, source: Id, now: int)
    requires source in c.facts.sources
    ensures var d := Deletion(c, source, now);
      && d.facts == MarkDeleted(c.facts, source)
      && d.heads.events == c.heads.events + RecomputedEvents(c, source, now)
      && d.log.tombstones == c.log.tombstones + Graves(c, source, now)
  {
    hide LedgerOf, RecomputedEvents, ThinnedEpisodes, Graves, KeysOf, EventRows, EpisodeRows, Reindexed;
  }

  lemma EventGraves(c: Core, source: Id, now: int, id: Id)
    ensures EventTarget(id) in Graves(c, source, now) <==> id in Gone(c, source)
  {
    hide ThinnedEpisodes, Gone;
  }

  lemma WipedStaysLive(c: Core, source: Id, now: int, id: Id)
    requires id in Gone(c, source)
    ensures id in RecomputedEvents(c, source, now)
    ensures RecomputedEvents(c, source, now)[id].Live() <==> c.heads.events[id].fact == ConflictFact
  {
  }

  lemma AffectedAreLive(c: Core, source: Id, now: int)
    ensures forall id :: id in RecomputedEvents(c, source, now) ==> id in c.heads.events && c.heads.events[id].Live()
  {
  }

  /** New revisions of live events, with some of them buried. */
  lemma BuriesAll(c: Core, d: Core, events: map<Id, Event>, gone: set<Id>)
    requires BuriedAreDeleted(c) && d.heads.events == c.heads.events + events && gone <= events.Keys
    requires forall id :: id in events ==> id in c.heads.events && c.heads.events[id].Live()
    requires forall id :: EventTarget(id) in d.log.tombstones <==> EventTarget(id) in c.log.tombstones || id in gone
    ensures BuriedAreDeleted(d) <==> forall id :: id in gone ==> !events[id].Live()
  {
    forall id | id in gone && events[id].Live() ensures !BuriedAreDeleted(d) {
      assert EventTarget(id) in d.log.tombstones && id in d.heads.events && d.heads.events[id].Live();
    }
  }

  lemma DeletionBuries(c: Core, source: Id, now: int)
    requires Grounded(c) && BuriedAreDeleted(c) && source in c.facts.sources
    ensures BuriedAreDeleted(Deletion(c, source, now)) <==> forall id :: id in Gone(c, source) ==> c.heads.events[id].fact != ConflictFact
  {
    var d := Deletion(c, source, now);
    var events := RecomputedEvents(c, source, now);
    hide Grounded, Deletion, Gone, Graves, MarkDeleted, RecomputedEvents, BuriedAreDeleted;
    DeletionParts(c, source, now);
    AffectedAreLive(c, source, now);
    forall id ensures EventTarget(id) in d.log.tombstones <==> EventTarget(id) in c.log.tombstones || id in Gone(c, source) {
      EventGraves(c, source, now, id);
    }
    forall id | id in Gone(c, source) ensures id in events && (events[id].Live() <==> c.heads.events[id].fact == ConflictFact) {
      WipedStaysLive(c, source, now, id);
    }
    BuriesAll(c, d, events, Gone(c, source));
  }

  /** One command keeps every tombstoned event deleted exactly when it respects tombstones in the sense above. */
  lemma StepBuries(c: Core, command: Command)
    requires Grounded(c) && BuriedAreDeleted(c)
    ensures BuriedAreDeleted(Step(c, command)) <==> RespectsTombstones(c, command)
  {
    hide LogOk, DaysOk, Deletion, AppendRevision, Rebuild, ReplaceEvent;
    match command
    case Append(id, base, changes, evidence, now) =>
      if Execute(c, command).Done? { AppendBuries(c, id, base, changes, evidence, now); }
    case Conflict(id, competing, now) =>
      if Execute(c, command).Done? {
        AppendBuries(c, id, c.heads.events[id].revision, NoChanges.(fact := Some(ConflictFact), state := Some(InConflict)), None, now);
      }
    case Undo(id, base, restore, now) =>
      if Execute(c, command).Done? {
        var target := c.log.events[Version(id, restore)];
        AppendBuries(c, id, base,
          Changes(Some(target.title), Some(target.description), Some(target.fact), Some(target.state), Some(target.range), None),
          Some(target.evidence), now);
      }
    case Delete(source, now) => if Execute(c, command).Done? { DeletionBuries(c, source, now); }
    case RebuildAll => RebuildKeeps(c);
    case _ => OthersBury(c, command);
  }

  lemma OthersBury(c: Core, command: Command)
    requires Grounded(c) && BuriedAreDeleted(c)
    requires command.Capture? || command.Observe? || command.Accept? || command.Group? || command.Cover? || command.ReadDay?
    ensures BuriedAreDeleted(Step(c, command))
  {
    assert EventHeadOk(c, c.nextId) && GraveOk(c, c.nextId);
    hide LogOk, DaysOk, LedgerOf, EventRefused, EpisodeRefused;
  }

  /** Every command of a run respects the tombstones it meets. */
  ghost predicate Respectful(commands: seq<Command>) {
    forall i :: 0 <= i < |commands| ==> RespectsTombstones(Run(commands[..i]), commands[i])
  }

  lemma {:induction false} RespectfulRunsBury(commands: seq<Command>)
    requires Respectful(commands)
    ensures BuriedAreDeleted(Run(commands))
  {
    if commands != [] {
      var n := |commands| - 1;
      assert Respectful(commands[..n]) by {
        forall i | 0 <= i < n ensures RespectsTombstones(Run(commands[..n][..i]), commands[..n][i]) {
          assert commands[..n][..i] == commands[..i];
        }
      }
      RespectfulRunsBury(commands[..n]);
      RunKeepsGrounded(commands[..n]);
      assert RespectsTombstones(Run(commands[..n]), commands[n]);
      StepBuries(Run(commands[..n]), commands[n]);
    }
  }

  /** The promise in full: on runs with one zone for each owner and space whose commands respect tombstones, rebuilding
      changes nothing. */
  lemma RebuildChangesNothing(commands: seq<Command>, zone: (string, string) -> string)
    requires Zoned(Run(commands), zone) && Respectful(commands)
    ensures Rebuild(Run(commands)) == Run(commands)
  {
    RespectfulRunsBury(commands);
    RebuildAgrees(commands, zone);
  }
}
