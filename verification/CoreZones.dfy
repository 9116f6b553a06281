/** Ledgers in several time zones: exactly which command leaves which ledger behind, in every run, and so exactly when
    rebuilding from the log changes nothing. */
module CoreZones {
  import opened Json
  import opened CoreModel
  import opened CoreLedger
  import opened CoreCommands
  import opened CoreRebuild

  // ---- what a caller can see before a command ----

  /** A live event that is in no episode of its day is an entry of its own there. */
  predicate WasListed(heads: Heads, id: Id) {
    id in heads.events && heads.events[id].Live() && !InEpisodeOn(heads, heads.events[id].On(), id)
  }

  /** The revision that one of the three commands on an existing event writes. */
  function NextRevision(c: Core, command: Command): (e: Event)
    requires (command.Append? || command.Conflict? || command.Undo?) && Execute(c, command).Done?
  {
    match command
    case Append(id, _, changes, evidence, now) => AppendedEvent(c, id, changes, evidence, now)
    case Conflict(id, _, now) =>
      AppendedEvent(c, id, NoChanges.(fact := Some(ConflictFact), state := Some(InConflict)), None, now)
    case Undo(id, _, restore, now) =>
      var target := c.log.events[Version(id, restore)];
      AppendedEvent(c, id,
        Changes(Some(target.title), Some(target.description), Some(target.fact), Some(target.state), Some(target.range), None),
        Some(target.evidence), now)
  }

  /** The keys of the rows a deletion writes. */
  function DeletionKeys(c: Core, source: Id, now: int): set<DayKey> {
    KeysOf(RecomputedEvents(c, source, now), ThinnedEpisodes(c, Gone(c, source), now))
  }

  /** The days a revision of an event touches: the one it is written on, and the one where the event was listed. */
  function RevisedDays(c: Core, e: Event): set<Day> {
    {e.On()} + (if WasListed(c.heads, e.id) then {c.heads.events[e.id].On()} else {})
  }

  function RevisedKeys(c: Core, e: Event): set<DayKey>
    requires e.id in c.heads.events
  {
    {e.Key()} + (if c.heads.events[e.id].date != e.date then {DayKey(c.heads.events[e.id].On(), e.Key().zone)} else {})
  }

  /** The days whose ledgers a command makes out of date, in whatever zone. */
  function Touches(c: Core, command: Command): set<Day> {
    if Execute(c, command).Refused? then {}
    else
      match command
      case Accept(n, now) => {FirstEvent(c, n, now).On()}
      case Group(n, now) => {FirstEpisode(c, n, now).On()}
      case Append(_, _, _, _, _) => RevisedDays(c, NextRevision(c, command))
      case Conflict(_, _, _) => RevisedDays(c, NextRevision(c, command))
      case Undo(_, _, _, _) => RevisedDays(c, NextRevision(c, command))
      case Delete(source, now) => DaysOf(DeletionKeys(c, source, now))
      case _ => {}
  }

  /** The ledgers a command refreshes. */
  function Refreshes(c: Core, command: Command): set<DayKey> {
    if Execute(c, command).Refused? then {}
    else
      match command
      case Accept(n, now) => {FirstEvent(c, n, now).Key()}
      case Group(n, now) => {FirstEpisode(c, n, now).Key()}
      case Append(_, _, _, _, _) => RevisedKeys(c, NextRevision(c, command))
      case Conflict(_, _, _) => RevisedKeys(c, NextRevision(c, command))
      case Undo(_, _, _, _) => RevisedKeys(c, NextRevision(c, command))
      case Cover(key, _, _) => {key}
      case ReadDay(key) => if key in c.days.ledgers then {} else {key}
      case Delete(source, now) => DeletionKeys(c, source, now)
      case RebuildAll => c.days.identities.Keys
      case _ => {}
  }

  /** A command touches the day of a ledger that it does not refresh. */
  predicate LeavesOut(c: Core, command: Command, key: DayKey) {
    key in c.days.identities && key.day in Touches(c, command) && key !in Refreshes(c, command)
  }

  /** Some command left the ledger out, and no later one refreshed it. */
  ghost predicate LeftBehind(commands: seq<Command>, key: DayKey) {
    exists i :: 0 <= i < |commands| && LeavesOut(Run(commands[..i]), commands[i], key) && RefreshedNoMore(commands, i, key)
  }

  ghost predicate RefreshedNoMore(commands: seq<Command>, i: nat, key: DayKey) {
    forall j :: i < j < |commands| ==> key !in Refreshes(Run(commands[..j]), commands[j])
  }

  // ---- ledgers out of date for good ----

  /** An entry for an event that has a newer revision. */
  predicate Past(heads: Heads, entry: Entry) {
    entry.kind == EventEntry && entry.id in heads.events && heads.events[entry.id].revision > entry.revision
  }

  /** The ledger can only be caught up by a refresh: the log has more revisions, or an entry is past. */
  ghost predicate Outdated(c: Core, ledger: Ledger, key: DayKey) {
    && ledger.revision <= LedgerOf(c, key).revision
    && (ledger.revision < LedgerOf(c, key).revision || exists entry :: entry in ledger.entries && Past(c.heads, entry))
  }

  ghost predicate FreshOrOutdated(c: Core) {
    forall key :: key in c.days.ledgers ==> c.days.ledgers[key] == LedgerOf(c, key) || Outdated(c, c.days.ledgers[key], key)
  }

  lemma OutdatedIsStale(c: Core, ledger: Ledger, key: DayKey)
    requires Outdated(c, ledger, key)
    ensures ledger != LedgerOf(c, key)
  {
    hide RevisionsOn;
  }

  /** The effect of a command on ledgers: some are refreshed, and of the others those of touched days become outdated. */
  ghost predicate Effect(c: Core, d: Core, touched: set<Day>, keys: set<DayKey>) {
    && d.days.identities.Keys == c.days.identities.Keys + keys
    && d.days.ledgers.Keys == c.days.ledgers.Keys + keys
    && forall key :: LedgerEffect(c, d, touched, keys, key)
  }

  ghost predicate LedgerEffect(c: Core, d: Core, touched: set<Day>, keys: set<DayKey>, key: DayKey) {
    if key in keys then key in d.days.ledgers && d.days.ledgers[key] == LedgerOf(d, key)
    else
      key in c.days.ledgers ==>
        && key in d.days.ledgers && d.days.ledgers[key] == c.days.ledgers[key]
        && (key.day in touched ==> Outdated(d, LedgerOf(c, key), key))
        && (key.day !in touched ==> LedgerOf(d, key) == LedgerOf(c, key))
  }

  // ---- writing, then refreshing ----

  /** Some ledgers are computed anew. */
  ghost predicate RefreshedFrom(w: Core, d: Core, keys: set<DayKey>) {
    && d.heads == w.heads && d.log == w.log && d.days.coverage == w.days.coverage
    && d.days.identities.Keys == w.days.identities.Keys + keys
    && d.days.ledgers.Keys == w.days.ledgers.Keys + keys
    && forall key :: key in d.days.ledgers ==> d.days.ledgers[key] == if key in keys then LedgerOf(w, key) else w.days.ledgers[key]
  }

  lemma OneRefreshed(w: Core, key: DayKey)
    ensures RefreshedFrom(w, Refresh(w, key), {key})
  {
    hide RevisionsOn, EntriesOf;
  }

  lemma SameLedgersOf(c: Core, d: Core)
    requires d.heads == c.heads && d.log == c.log && d.days.coverage == c.days.coverage
    ensures forall key :: LedgerOf(d, key) == LedgerOf(c, key)
  {
    hide RevisionsOn, EntriesOf;
  }

  lemma TwoRefreshed(w: Core, key: DayKey, other: DayKey)
    ensures RefreshedFrom(w, Refresh(Refresh(w, key), other), {key} + {other})
  {
    hide LedgerOf, Refresh;
    var m := Refresh(w, key);
    OneRefreshed(w, key);
    OneRefreshed(m, other);
    SameLedgersOf(w, m);
  }

  lemma AllRefreshed(w: Core, keys: set<DayKey>)
    requires keys <= w.days.identities.Keys
    ensures RefreshedFrom(w, RefreshAll(w, keys), keys)
  {
    hide LedgerOf;
  }

  /** What a write does to the ledgers that are not refreshed after it. */
  ghost predicate Written(c: Core, w: Core, touched: set<Day>, key: DayKey) {
    && (key.day in touched ==> Outdated(w, LedgerOf(c, key), key))
    && (key.day !in touched ==> LedgerOf(w, key) == LedgerOf(c, key))
  }

  lemma WriteThenRefresh(c: Core, w: Core, d: Core, touched: set<Day>, keys: set<DayKey>)
    requires w.days.ledgers == c.days.ledgers && w.days.identities.Keys + keys == c.days.identities.Keys + keys
    requires RefreshedFrom(w, d, keys) && forall key :: key !in keys ==> Written(c, w, touched, key)
    ensures Effect(c, d, touched, keys)
  {
    hide RevisionsOn, EntriesOf;
    forall key ensures LedgerEffect(c, d, touched, keys, key) {
      assert LedgerOf(d, key) == LedgerOf(w, key);
      assert key !in keys ==> Written(c, w, touched, key);
    }
  }

  lemma WriteThenRefreshOne(c: Core, w: Core, touched: set<Day>, key: DayKey)
    requires w.days.ledgers == c.days.ledgers && w.days.identities.Keys + {key} == c.days.identities.Keys + {key}
    requires forall k :: k != key ==> Written(c, w, touched, k)
    ensures Effect(c, Refresh(w, key), touched, {key})
  {
    hide Effect, Written, RefreshedFrom, Refresh;
    OneRefreshed(w, key);
    WriteThenRefresh(c, w, Refresh(w, key), touched, {key});
  }

  // ---- more revisions ----

  lemma Included(few: set<Version>, many: set<Version>)
    requires few <= many
    ensures |few| <= |many| && (few != many ==> |few| < |many|)
  {
    assert many == few + (many - few);
  }

  lemma RevisionsGrow(c: Core, d: Core, day: Day)
    requires Grows(c, d)
    ensures RevisionsOn(c.log, day) <= RevisionsOn(d.log, day)
    ensures NewRowOn(c, d, day) ==> RevisionsOn(c.log, day) < RevisionsOn(d.log, day)
  {
    var events, moreEvents := (set v | v in c.log.events && c.log.events[v].On() == day), (set v | v in d.log.events && d.log.events[v].On() == day);
    var episodes, moreEpisodes := (set v | v in c.log.episodes && c.log.episodes[v].On() == day), (set v | v in d.log.episodes && d.log.episodes[v].On() == day);
    Included(events, moreEvents);
    Included(episodes, moreEpisodes);
    if NewRowOn(c, d, day) {
      if v :| v !in c.log.events && v in d.log.events && d.log.events[v].On() == day {
        assert v in moreEvents && v !in events;
      } else {
        var v :| v !in c.log.episodes && v in d.log.episodes && d.log.episodes[v].On() == day;
        assert v in moreEpisodes && v !in episodes;
      }
    }
  }

  ghost predicate NewRowOn(c: Core, d: Core, day: Day) {
    || (exists v :: v !in c.log.events && v in d.log.events && d.log.events[v].On() == day)
    || (exists v :: v !in c.log.episodes && v in d.log.episodes && d.log.episodes[v].On() == day)
  }

  lemma NewRowOutdates(c: Core, d: Core, key: DayKey)
    requires Grows(c, d) && NewRowOn(c, d, key.day) && d.days.coverage == c.days.coverage
    ensures Outdated(d, LedgerOf(c, key), key)
  {
    RevisionsGrow(c, d, key.day);
    hide RevisionsOn, EntriesOf, Grows, NewRowOn;
  }

  // ---- one revision ----

  lemma EventRowIsNew(c: Core, e: Event)
    requires LogOk(c) && NextEvent(c, e.id, e)
    ensures Version(e.id, e.revision) !in c.log.events && NewRowOn(c, PutEvent(c, e), e.On())
  {
    var v := Version(e.id, e.revision);
    assert EventRowOk(c, v);
    assert v in PutEvent(c, e).log.events && PutEvent(c, e).log.events[v].On() == e.On();
  }

  lemma EpisodeRowIsNew(c: Core, e: Episode)
    requires LogOk(c) && NextEpisode(c, e.id, e)
    ensures NewRowOn(c, PutEpisode(c, e), e.On())
  {
    var v := Version(e.id, e.revision);
    assert EpisodeRowOk(c, v);
    assert v in PutEpisode(c, e).log.episodes && PutEpisode(c, e).log.episodes[v].On() == e.On();
  }

  /** An event moves away: the day loses its entry, if it had one, and no revision. */
  lemma LeavingOutdates(c: Core, w: Core, id: Id, key: DayKey)
    requires WasListed(c.heads, id) && c.heads.events[id].On() == key.day && Grows(c, w) && w.days.coverage == c.days.coverage
    requires id in w.heads.events && w.heads.events[id].revision > c.heads.events[id].revision
    ensures Outdated(w, LedgerOf(c, key), key)
  {
    var e := c.heads.events[id];
    var entry := Entry(EventEntry, id, e.revision, e.range.start);
    assert id in EventsOn(c.heads, key.day);
    assert entry in EntriesOf(c.heads, key.day) && Past(w.heads, entry);
    RevisionsGrow(c, w, key.day);
    hide RevisionsOn, EntriesOf, Grows, WasListed;
    assert entry in LedgerOf(c, key).entries;
  }

  lemma UnlistedLeaves(c: Core, e: Event, key: DayKey)
    requires e.id in c.heads.events && !WasListed(c.heads, e.id) && c.heads.events[e.id].On() == key.day != e.On()
    requires Version(e.id, e.revision) !in c.log.events
    ensures LedgerOf(PutEvent(c, e), key) == LedgerOf(c, key)
  {
    var w := PutEvent(c, e);
    assert (set v | v in w.log.events && w.log.events[v].On() == key.day) == (set v | v in c.log.events && c.log.events[v].On() == key.day);
    hide EntriesOf, WasListed, Reindexed;
    UnlistedIsNoEntry(c.heads, w.heads, e, key.day);
  }

  lemma UnlistedIsNoEntry(h: Heads, k: Heads, e: Event, day: Day)
    requires e.id in h.events && !WasListed(h, e.id) && h.events[e.id].On() == day != e.On()
    requires k.events == h.events[e.id := e] && k.episodes == h.episodes
    ensures EntriesOf(k, day) == EntriesOf(h, day)
  {
    assert EpisodesOn(k, day) == EpisodesOn(h, day);
    assert EventsOn(k, day) == EventsOn(h, day) - {e.id};
    hide EpisodesOn;
    assert forall id :: InEpisodeOn(k, day, id) == InEpisodeOn(h, day, id);
    assert e.id in EventsOn(h, day) ==> InEpisodeOn(h, day, e.id);
    hide InEpisodeOn, EventsOn;
  }

  lemma EventTouches(c: Core, e: Event, key: DayKey)
    requires Grounded(c) && NextEvent(c, e.id, e)
    ensures Written(c, PutEvent(c, e), RevisedDays(c, e), key)
  {
    var w := PutEvent(c, e);
    EventsWritten(c, e);
    EventRowIsNew(c, e);
    hide LogOk, DaysOk, Outdated, LedgerOf, WasListed, Grows, PutEvents, PutEvent, FreshBut, NewRowOn, SameDay;
    if key.day == e.On() {
      NewRowOutdates(c, w, key);
    } else if e.id in c.heads.events && key.day == c.heads.events[e.id].On() {
      if WasListed(c.heads, e.id) {
        LeavingOutdates(c, w, e.id, key);
      } else {
        UnlistedLeaves(c, e, key);
      }
    } else {
      NotThere(c, e, key);
    }
  }

  lemma NotThere(c: Core, e: Event, key: DayKey)
    requires LogOk(c) && NextEvent(c, e.id, e) && key.day != e.On() && (e.id in c.heads.events ==> key.day != c.heads.events[e.id].On())
    ensures LedgerOf(PutEvent(c, e), key) == LedgerOf(c, key) && key.day !in RevisedDays(c, e)
  {
    assert key.day !in RevisedDays(c, e);
    hide LogOk, SameDay, LedgerOf, PutEvent, PutEvents, WasListed;
    assert NextEvents(c, map[e.id := e]) && EventsElsewhere(c, map[e.id := e], key.day);
    PutEventIsPutEvents(c, e);
    PutEventsElsewhere(c, map[e.id := e], key.day);
    PutEventsParts(c, map[e.id := e]);
    LedgerDependsOnDay(c, PutEvent(c, e), key);
  }

  lemma NewTouchesOneDay(c: Core, e: Event)
    requires e.id !in c.heads.events
    ensures RevisedDays(c, e) == {e.On()}
  {
  }

  lemma PutLeavesDays(c: Core, e: Event)
    ensures PutEvent(c, e).days == c.days
  {
  }

  lemma NewEventIsWritten(c: Core, e: Event, key: DayKey)
    requires Grounded(c) && e.id == c.nextId && e.revision == 1
    ensures Written(c, PutEvent(c.(nextId := c.nextId + 1), e), {e.On()}, key)
  {
    var c0 := c.(nextId := c.nextId + 1);
    hide Grounded, Written, PutEvent, FreshBut, Grows, RevisedDays;
    NewIdKeeps(c);
    NewTouchesOneDay(c0, e);
    EventTouches(c0, e, key);
    SameBefore(c, c0, PutEvent(c0, e), {e.On()}, key);
  }

  lemma NewEventTouches(c: Core, e: Event)
    requires Grounded(c) && e.id == c.nextId && e.revision == 1
    ensures Effect(c, AddEvent(c, e), {e.On()}, {e.Key()})
  {
    hide Grounded, Effect, Written, Refresh, PutEvent;
    var c0 := c.(nextId := c.nextId + 1);
    var w := PutEvent(c0, e);
    PutLeavesDays(c0, e);
    forall key ensures Written(c, w, {e.On()}, key) { NewEventIsWritten(c, e, key); }
    WriteThenRefreshOne(c, w, {e.On()}, e.Key());
  }

  lemma SameBefore(c: Core, c0: Core, w: Core, touched: set<Day>, key: DayKey)
    requires c0 == c.(nextId := c0.nextId) && Written(c0, w, touched, key)
    ensures Written(c, w, touched, key)
  {
    hide Outdated, RevisionsOn, EntriesOf;
    assert LedgerOf(c0, key) == LedgerOf(c, key);
  }

  lemma ReplacedAndRefreshed(c: Core, e: Event)
    requires e.id in c.heads.events
    ensures RefreshedFrom(PutEvent(c, e), ReplaceEvent(c, e), RevisedKeys(c, e))
  {
    hide RefreshedFrom, Refresh, PutEvent;
    OneRefreshed(PutEvent(c, e), e.Key());
    TwoRefreshed(PutEvent(c, e), e.Key(), DayKey(c.heads.events[e.id].On(), e.Key().zone));
    assert {e.Key()} + {} == {e.Key()};
  }

  lemma RevisionTouches(c: Core, e: Event)
    requires Grounded(c) && e.id in c.heads.events && NextEvent(c, e.id, e)
    ensures Effect(c, ReplaceEvent(c, e), RevisedDays(c, e), RevisedKeys(c, e))
  {
    var w := PutEvent(c, e);
    hide Grounded, Effect, RefreshedFrom, Written, PutEvent, RevisedDays, NextEvent, RevisedKeys, ReplaceEvent;
    forall key ensures Written(c, w, RevisedDays(c, e), key) { EventTouches(c, e, key); }
    ReplacedAndRefreshed(c, e);
    PutLeavesDays(c, e);
    WriteThenRefresh(c, w, ReplaceEvent(c, e), RevisedDays(c, e), RevisedKeys(c, e));
  }

  lemma EpisodeElsewhere(c: Core, e: Episode, key: DayKey)
    requires LogOk(c) && NextEpisode(c, e.id, e) && key.day != e.On() && e.id !in c.heads.episodes
    ensures LedgerOf(PutEpisode(c, e), key) == LedgerOf(c, key)
  {
    hide LogOk, SameDay, LedgerOf, PutEpisode, PutEpisodes;
    assert NextEpisodes(c, map[e.id := e]) && EpisodesElsewhere(c, map[e.id := e], key.day);
    PutEpisodeIsPutEpisodes(c, e);
    PutEpisodesElsewhere(c, map[e.id := e], key.day);
    PutEpisodesParts(c, map[e.id := e]);
    LedgerDependsOnDay(c, PutEpisode(c, e), key);
  }

  lemma NewEpisodeIsWritten(c: Core, e: Episode, key: DayKey)
    requires Grounded(c) && e.id == c.nextId && e.revision == 1
    ensures Written(c, PutEpisode(c.(nextId := c.nextId + 1), e), {e.On()}, key)
  {
    hide LogOk, DaysOk, PutEpisode, FreshBut, Grows, Outdated, LedgerOf, DaysOfEpisodes, NewRowOn, EpisodesElsewhere;
    var c0 := c.(nextId := c.nextId + 1);
    var w := PutEpisode(c0, e);
    NewIdKeeps(c);
    EpisodesWritten(c0, e);
    if key.day == e.On() {
      EpisodeRowIsNew(c0, e);
      PutEpisodeLeavesCoverage(c0, e);
      NewRowOutdates(c0, w, key);
    } else {
      EpisodeElsewhere(c0, e, key);
    }
    SameBefore(c, c0, w, {e.On()}, key);
  }

  lemma PutEpisodeLeavesCoverage(c: Core, e: Episode)
    ensures PutEpisode(c, e).days == c.days
  {
  }

  lemma NewEpisodeTouches(c: Core, e: Episode)
    requires Grounded(c) && e.id == c.nextId && e.revision == 1
    ensures Effect(c, AddEpisode(c, e), {e.On()}, {e.Key()})
  {
    hide Grounded, Effect, Written, Refresh, PutEpisode;
    var c0 := c.(nextId := c.nextId + 1);
    var w := PutEpisode(c0, e);
    PutEpisodeLeavesCoverage(c0, e);
    forall key ensures Written(c, w, {e.On()}, key) { NewEpisodeIsWritten(c, e, key); }
    WriteThenRefreshOne(c, w, {e.On()}, e.Key());
  }

  // ---- commands that write no revision ----

  lemma NothingTouched(c: Core, d: Core)
    requires d.days == c.days && d.heads == c.heads && d.log == c.log
    ensures Effect(c, d, {}, {})
  {
    hide RevisionsOn, EntriesOf;
    forall key ensures LedgerEffect(c, d, {}, {}, key) { assert LedgerOf(d, key) == LedgerOf(c, key); }
    assert c.days.ledgers.Keys == c.days.ledgers.Keys + {} && c.days.identities.Keys == c.days.identities.Keys + {};
  }

  lemma CoverTouches(c: Core, key: DayKey, input: Coverage)
    ensures Effect(c, Refresh(WithInput(Identify(c, key), key, input), key), {}, {key})
  {
    hide Effect, Refresh, RevisionsOn, EntriesOf;
    var w := WithInput(Identify(c, key), key, input);
    WriteThenRefreshOne(c, w, {}, key);
  }

  lemma ReadTouches(c: Core, key: DayKey)
    requires key !in c.days.ledgers
    ensures Effect(c, Refresh(c, key), {}, {key})
  {
    hide Effect, Refresh, RevisionsOn, EntriesOf;
    WriteThenRefreshOne(c, c, {}, key);
  }

  lemma LedgersHaveIds(c: Core)
    requires DaysOk(c, {})
    ensures c.days.ledgers.Keys == c.days.identities.Keys
  {
    assert c.days.identities.Keys + {} == c.days.ledgers.Keys + {};
  }

  lemma RebuildTouches(c: Core)
    requires Grounded(c)
    ensures Effect(c, Rebuild(c), {}, c.days.identities.Keys)
  {
    hide LogOk, Rebuild, HeadsOf, KeysOf, Grows, LedgerOf;
    var d := Rebuild(c);
    RebuildParts(c);
    RebuildKeeps(c);
    LedgersHaveIds(c);
    LedgersHaveIds(d);
    forall key ensures LedgerEffect(c, d, {}, c.days.identities.Keys, key) {
      assert FreshAt(d, key);
    }
  }

  // ---- a deletion ----

  lemma InPlaceRow(c: Core, w: Core, events: map<Id, Event>, episodes: map<Id, Episode>, key: DayKey, other: DayKey)
    requires LogOk(c) && InPlaceEvents(c, events) && InPlaceEpisodes(c, episodes)
    requires w.log.events == c.log.events + EventRows(events) && w.log.episodes == c.log.episodes + EpisodeRows(episodes)
    requires other in KeysOf(events, episodes) && other.day == key.day
    ensures NewRowOn(c, w, key.day)
  {
    if id :| id in events && events[id].Key() == other {
      var v := Version(id, events[id].revision);
      assert EventRowOk(c, v) && NextEvent(c, id, events[id]) && v in EventRows(events);
    } else {
      var id :| id in episodes && episodes[id].Key() == other;
      var v := Version(id, episodes[id].revision);
      assert EpisodeRowOk(c, v) && NextEpisode(c, id, episodes[id]) && v in EpisodeRows(episodes);
    }
  }

  lemma InPlaceElsewhere(c: Core, events: map<Id, Event>, episodes: map<Id, Episode>, day: Day)
    requires InPlaceEvents(c, events) && InPlaceEpisodes(c, episodes)
    requires forall key :: key in KeysOf(events, episodes) ==> key.day != day
    ensures EventsElsewhere(c, events, day) && EpisodesElsewhere(c, episodes, day)
  {
    forall id | id in events ensures events[id].On() != day && c.heads.events[id].On() != day {
      assert events[id].Key() in KeysOf(events, episodes) && events[id].Key() == c.heads.events[id].Key();
    }
    forall id | id in episodes ensures episodes[id].On() != day && c.heads.episodes[id].On() != day {
      assert episodes[id].Key() in KeysOf(events, episodes) && episodes[id].Key() == c.heads.episodes[id].Key();
    }
  }

  function DaysOf(keys: set<DayKey>): set<Day> {
    set key | key in keys :: key.day
  }

  /** The rows a deletion writes, before ledgers are refreshed. */
  function DeletionRows(c: Core, facts: Facts, events: map<Id, Event>, episodes: map<Id, Episode>, graves: set<Target>): Core {
    Bury(PutEpisodes(PutEvents(c.(facts := facts), events), episodes), graves)
  }

  lemma DeletionRowsParts(c: Core, facts: Facts, events: map<Id, Event>, episodes: map<Id, Episode>, graves: set<Target>)
    ensures var w := DeletionRows(c, facts, events, episodes, graves);
      && w.days == c.days && w.log.events == c.log.events + EventRows(events) && w.log.episodes == c.log.episodes + EpisodeRows(episodes)
  {
  }

  lemma SideChangesKeepLedger(c: Core, d: Core, key: DayKey)
    requires d.heads == c.heads && d.days == c.days && d.log.events == c.log.events && d.log.episodes == c.log.episodes
    ensures LedgerOf(d, key) == LedgerOf(c, key)
  {
    hide EntriesOf;
  }

  lemma EventsOfDeletionElsewhere(c: Core, facts: Facts, events: map<Id, Event>, key: DayKey)
    requires LogOk(c) && NextEvents(c, events) && EventsElsewhere(c, events, key.day)
    ensures var c2 := PutEvents(c.(facts := facts), events);
      LogOk(c2) && c2.heads.episodes == c.heads.episodes && c2.nextId == c.nextId && LedgerOf(c2, key) == LedgerOf(c, key)
  {
    var c1 := c.(facts := facts);
    assert NextEvents(c1, events) by {
      forall id | id in events ensures NextEvent(c1, id, events[id]) { assert NextEvent(c, id, events[id]); }
    }
    assert EventsElsewhere(c1, events, key.day);
    hide LogOk, NextEvents, EventsElsewhere, PutEvents, SameDay, LedgerOf, Grows;
    SideChangesKeepLog(c, c1);
    PutEventsParts(c1, events);
    PutEventsKeeps(c1, events);
    PutEventsElsewhere(c1, events, key.day);
    LedgerDependsOnDay(c1, PutEvents(c1, events), key);
    SideChangesKeepLedger(c, c1, key);
  }

  lemma EpisodesOfDeletionElsewhere(c: Core, c2: Core, episodes: map<Id, Episode>, graves: set<Target>, key: DayKey)
    requires LogOk(c2) && NextEpisodes(c, episodes) && EpisodesElsewhere(c, episodes, key.day)
    requires c2.heads.episodes == c.heads.episodes && c2.nextId == c.nextId
    ensures LedgerOf(Bury(PutEpisodes(c2, episodes), graves), key) == LedgerOf(c2, key)
  {
    assert NextEpisodes(c2, episodes) by {
      forall id | id in episodes ensures NextEpisode(c2, id, episodes[id]) { assert NextEpisode(c, id, episodes[id]); }
    }
    assert EpisodesElsewhere(c2, episodes, key.day);
    hide LogOk, NextEpisodes, EpisodesElsewhere, PutEpisodes, SameDay, LedgerOf, Grows;
    var c3 := PutEpisodes(c2, episodes);
    PutEpisodesParts(c2, episodes);
    PutEpisodesElsewhere(c2, episodes, key.day);
    LedgerDependsOnDay(c2, c3, key);
    SideChangesKeepLedger(c3, Bury(c3, graves), key);
  }

  lemma DeletionElsewhere(c: Core, facts: Facts, events: map<Id, Event>, episodes: map<Id, Episode>, graves: set<Target>, key: DayKey)
    requires LogOk(c) && InPlaceEvents(c, events) && InPlaceEpisodes(c, episodes)
    requires EventsElsewhere(c, events, key.day) && EpisodesElsewhere(c, episodes, key.day)
    ensures LedgerOf(DeletionRows(c, facts, events, episodes, graves), key) == LedgerOf(c, key)
  {
    hide LogOk, NextEvents, NextEpisodes, EventsElsewhere, EpisodesElsewhere, PutEvents, PutEpisodes, LedgerOf, Bury;
    EventsOfDeletionElsewhere(c, facts, events, key);
    EpisodesOfDeletionElsewhere(c, PutEvents(c.(facts := facts), events), episodes, graves, key);
  }

  lemma DeletionIsWritten(c: Core, facts: Facts, events: map<Id, Event>, episodes: map<Id, Episode>, graves: set<Target>, key: DayKey)
    requires Grounded(c) && InPlaceEvents(c, events) && InPlaceEpisodes(c, episodes)
    requires Grows(c, DeletionRows(c, facts, events, episodes, graves))
    ensures Written(c, DeletionRows(c, facts, events, episodes, graves), DaysOf(KeysOf(events, episodes)), key)
  {
    hide LogOk, DaysOk, Grows, InPlaceEvents, InPlaceEpisodes, KeysOf, DeletionRows, Outdated, LedgerOf, NewRowOn, EventsElsewhere, EpisodesElsewhere;
    var w := DeletionRows(c, facts, events, episodes, graves);
    DeletionRowsParts(c, facts, events, episodes, graves);
    if key.day in DaysOf(KeysOf(events, episodes)) {
      var other :| other in KeysOf(events, episodes) && other.day == key.day;
      InPlaceRow(c, w, events, episodes, key, other);
      NewRowOutdates(c, w, key);
    } else {
      InPlaceElsewhere(c, events, episodes, key.day);
      DeletionElsewhere(c, facts, events, episodes, graves, key);
    }
  }

  lemma InPlaceTouches(c: Core, facts: Facts, events: map<Id, Event>, episodes: map<Id, Episode>, graves: set<Target>)
    requires Grounded(c) && InPlaceEvents(c, events) && InPlaceEpisodes(c, episodes)
    requires Grows(c, DeletionRows(c, facts, events, episodes, graves)) && KeysOf(events, episodes) <= c.days.identities.Keys
    ensures var keys := KeysOf(events, episodes);
      Effect(c, RefreshAll(DeletionRows(c, facts, events, episodes, graves), keys), DaysOf(keys), keys)
  {
    hide Grounded, InPlaceEvents, InPlaceEpisodes, Grows, DeletionRows, KeysOf, DaysOf, Written, Effect, RefreshedFrom, RefreshAll;
    var w := DeletionRows(c, facts, events, episodes, graves);
    var keys := KeysOf(events, episodes);
    DeletionRowsParts(c, facts, events, episodes, graves);
    forall key ensures Written(c, w, DaysOf(keys), key) {
      DeletionIsWritten(c, facts, events, episodes, graves, key);
    }
    AllRefreshed(w, keys);
    WriteThenRefresh(c, w, RefreshAll(w, keys), DaysOf(keys), keys);
  }

  lemma DeletionTouches(c: Core, source: Id, now: int)
    requires Grounded(c) && source in c.facts.sources
    ensures Effect(c, Deletion(c, source, now), DaysOf(DeletionKeys(c, source, now)), DeletionKeys(c, source, now))
  {
    hide LogOk, PutEvents, PutEpisodes, RefreshAll, Bury, FreshBut, Grows, DaysOk, KeysOf, NextEvents, NextEpisodes,
      MarkDeleted, ThinnedEpisodes, RecomputedEvents, Gone, Graves, DaysOf, Effect, DaysOfEvents, DaysOfEpisodes;
    var facts, events, episodes, graves :=
      MarkDeleted(c.facts, source), RecomputedEvents(c, source, now), ThinnedEpisodes(c, Gone(c, source), now), Graves(c, source, now);
    DeletionRevises(c, source, now);
    DeletionThins(c, c, Gone(c, source), now);
    GravesAreOfChanged(c, source, now);
    DeletionWrites(c, facts, events, episodes, graves);
    DeletionRowsParts(c, facts, events, episodes, graves);
    InPlaceTouches(c, facts, events, episodes, graves);
  }

  // ---- one command ----

  lemma AppendedIsNext(c: Core, id: Id, changes: Changes, evidence: Option<seq<Evidence>>, now: int)
    requires Grounded(c) && id in c.heads.events
    ensures var e := AppendedEvent(c, id, changes, evidence, now);
      && e.id == id && NextEvent(c, id, e) && e.owner == c.heads.events[id].owner && e.space == c.heads.events[id].space
  {
    assert EventHeadOk(c, id);
  }

  lemma RevisionIsNext(c: Core, command: Command)
    requires Grounded(c) && (command.Append? || command.Conflict? || command.Undo?) && Execute(c, command).Done?
    ensures var e := NextRevision(c, command);
      && e.id in c.heads.events && NextEvent(c, e.id, e) && Step(c, command) == ReplaceEvent(c, e)
      && e.owner == c.heads.events[e.id].owner && e.space == c.heads.events[e.id].space
  {
    hide Grounded, NextEvent, AppendedEvent, ReplaceEvent, EvidenceAccepted;
    match command
    case Append(id, _, changes, evidence, now) => AppendedIsNext(c, id, changes, evidence, now);
    case Conflict(id, _, now) =>
      AppendedIsNext(c, id, NoChanges.(fact := Some(ConflictFact), state := Some(InConflict)), None, now);
    case Undo(id, _, restore, now) =>
      var target := c.log.events[Version(id, restore)];
      AppendedIsNext(c, id,
        Changes(Some(target.title), Some(target.description), Some(target.fact), Some(target.state), Some(target.range), None),
        Some(target.evidence), now);
  }

  lemma StepEffect(c: Core, command: Command)
    requires Grounded(c)
    ensures Effect(c, Step(c, command), Touches(c, command), Refreshes(c, command))
  {
    hide Grounded, Effect, ReplaceEvent, Refresh, AppendRevision, Rebuild, Deletion, SetCoverage, NextRevision, RevisedDays, RevisedKeys,
      DeletionKeys, DaysOf, EventRefused, EpisodeRefused;
    var d := Step(c, command);
    if Execute(c, command).Refused? {
      NothingTouched(c, d);
    } else {
      match command
      case Capture(owner, space) => NothingTouched(c, d);
      case Observe(o) => NothingTouched(c, d);
      case Accept(n, now) => NewEventTouches(c, FirstEvent(c, n, now));
      case Append(id, base, changes, evidence, now) =>
        RevisionIsNext(c, command);
        RevisionTouches(c, NextRevision(c, command));
      case Conflict(id, competing, now) =>
        RevisionIsNext(c, command);
        RevisionTouches(c, NextRevision(c, command));
      case Undo(id, base, restore, now) =>
        RevisionIsNext(c, command);
        RevisionTouches(c, NextRevision(c, command));
      case Group(n, now) => NewEpisodeTouches(c, FirstEpisode(c, n, now));
      case Cover(key, state, reasons) => CoverStep(c, key, state, reasons);
      case ReadDay(key) => ReadStep(c, key);
      case Delete(source, now) => DeleteStep(c, source, now);
      case RebuildAll => RebuildTouches(c);
    }
  }

  lemma CoverStep(c: Core, key: DayKey, state: string, reasons: set<string>)
    requires SetCoverage(c, key, state, reasons).Done?
    ensures Effect(c, SetCoverage(c, key, state, reasons).core, {}, {key})
  {
    hide Effect, Refresh;
    CoverTouches(c, key, Coverage(state, reasons, CoverageVersion(c.days, key) + 1));
  }

  lemma ReadStep(c: Core, key: DayKey)
    ensures Effect(c, Today(c, key), {}, if key in c.days.ledgers then {} else {key})
  {
    hide Effect, Refresh;
    if key in c.days.ledgers {
      NothingTouched(c, c);
    } else {
      ReadTouches(c, key);
    }
  }

  lemma DeleteStep(c: Core, source: Id, now: int)
    requires Grounded(c) && DeleteSource(c, source, now).Done?
    ensures Effect(c, DeleteSource(c, source, now).core, DaysOf(DeletionKeys(c, source, now)), DeletionKeys(c, source, now))
  {
    hide Effect, Deletion, DaysOf, DeletionKeys, Grounded, Affected, DeletionBlocked;
    DeletionTouches(c, source, now);
  }

  ghost predicate Stale(c: Core, key: DayKey) {
    key in c.days.identities && !FreshAt(c, key)
  }

  /** Revisions of events only grow. */
  ghost predicate HeadsGrow(c: Core, d: Core) {
    forall id :: id in c.heads.events ==> id in d.heads.events && c.heads.events[id].revision <= d.heads.events[id].revision
  }

  lemma GrowthMovesHeads(c: Core, d: Core)
    requires LogOk(c) && LogOk(d) && Grows(c, d)
    ensures HeadsGrow(c, d)
  {
    forall id | id in c.heads.events ensures id in d.heads.events && c.heads.events[id].revision <= d.heads.events[id].revision {
      var v := Version(id, c.heads.events[id].revision);
      assert EventHeadOk(c, id) && v in d.log.events && EventRowOk(d, v);
    }
  }

  lemma OutdatedStays(c: Core, d: Core, ledger: Ledger, key: DayKey)
    requires Outdated(c, ledger, key) && HeadsGrow(c, d) && LedgerOf(c, key).revision <= LedgerOf(d, key).revision
    ensures Outdated(d, ledger, key)
  {
    hide LedgerOf;
    if entry :| entry in ledger.entries && Past(c.heads, entry) {
      assert Past(d.heads, entry);
    }
  }

  /** One ledger that is not refreshed. */
  lemma UnrefreshedLedger(c: Core, d: Core, touched: set<Day>, keys: set<DayKey>, key: DayKey)
    requires Effect(c, d, touched, keys) && HeadsGrow(c, d) && FreshOrOutdated(c) && key in c.days.ledgers && key !in keys
    ensures key in d.days.ledgers
    ensures d.days.ledgers[key] == LedgerOf(d, key) <==> c.days.ledgers[key] == LedgerOf(c, key) && key.day !in touched
    ensures d.days.ledgers[key] == LedgerOf(d, key) || Outdated(d, d.days.ledgers[key], key)
  {
    hide LedgerOf, HeadsGrow, Outdated;
    var ledger := c.days.ledgers[key];
    assert LedgerEffect(c, d, touched, keys, key);
    if ledger == LedgerOf(c, key) {
      if key.day in touched { OutdatedIsStale(d, ledger, key); }
    } else {
      assert Outdated(c, ledger, key);
      OutdatedIsStale(c, ledger, key);
      if key.day in touched { OutdatedGrows(d, LedgerOf(c, key), key); }
      OutdatedStays(c, d, ledger, key);
      OutdatedIsStale(d, ledger, key);
    }
  }

  lemma OutdatedGrows(d: Core, ledger: Ledger, key: DayKey)
    requires Outdated(d, ledger, key)
    ensures ledger.revision <= LedgerOf(d, key).revision
  {
  }

  /** A ledger is out of date after a command exactly when the command left it out, or it was before and is not
      refreshed. */
  lemma StepStales(c: Core, command: Command, key: DayKey)
    requires Grounded(c) && FreshOrOutdated(c)
    ensures Stale(Step(c, command), key) <==> LeavesOut(c, command, key) || (Stale(c, key) && key !in Refreshes(c, command))
    ensures key in Step(c, command).days.ledgers ==>
      var d := Step(c, command); d.days.ledgers[key] == LedgerOf(d, key) || Outdated(d, d.days.ledgers[key], key)
  {
    var d := Step(c, command);
    StepEffect(c, command);
    StepSafe(c, command, (owner, space) => "UTC");
    GrowthMovesHeads(c, d);
    LedgersHaveIds(c);
    LedgersHaveIds(d);
    hide LogOk, DaysOk, Grows, Step, Touches, Refreshes, LedgerOf, Outdated, HeadsGrow, FreshOrOutdated, FreshBut, Zoned;
    assert LedgerEffect(c, d, Touches(c, command), Refreshes(c, command), key);
    if key in c.days.ledgers && key !in Refreshes(c, command) {
      UnrefreshedLedger(c, d, Touches(c, command), Refreshes(c, command), key);
    }
  }

  lemma FreshHasNoOutdated(c: Core)
    requires Grounded(c) && FreshBut(c, {})
    ensures FreshOrOutdated(c)
  {
    LedgersHaveIds(c);
    hide LedgerOf, Outdated, LogOk, DaysOk;
    forall key | key in c.days.ledgers ensures c.days.ledgers[key] == LedgerOf(c, key) { assert FreshAt(c, key); }
  }

  /** One command keeps every ledger fresh exactly when it leaves none out. */
  lemma StepFreshens(c: Core, command: Command)
    requires Grounded(c) && FreshBut(c, {})
    ensures FreshBut(Step(c, command), {}) <==> forall key :: !LeavesOut(c, command, key)
  {
    var d := Step(c, command);
    FreshHasNoOutdated(c);
    hide Grounded, Step, LeavesOut, Refreshes, FreshOrOutdated, FreshAt;
    forall key: DayKey ensures FreshAt(d, key) <==> !LeavesOut(c, command, key) {
      StepStales(c, command, key);
      assert FreshAt(c, key);
      NoIdIsFresh(d, key);
    }
  }

  lemma NoIdIsFresh(c: Core, key: DayKey)
    ensures key !in c.days.identities ==> FreshAt(c, key)
  {
    hide LedgerOf;
  }

  // ---- runs ----

  lemma {:induction false} RunFallsBehind(commands: seq<Command>)
    ensures FreshOrOutdated(Run(commands))
  {
    if commands != [] {
      var c := Run(commands[..|commands| - 1]);
      var last := commands[|commands| - 1];
      RunFallsBehind(commands[..|commands| - 1]);
      RunKeepsGrounded(commands[..|commands| - 1]);
      assert Run(commands) == Step(c, last);
      hide Run, Step, LedgerOf, Outdated, Grounded, LeavesOut, Refreshes, Stale;
      forall key | key in Step(c, last).days.ledgers
        ensures var d := Step(c, last); d.days.ledgers[key] == LedgerOf(d, key) || Outdated(d, d.days.ledgers[key], key)
      {
        StepStales(c, last, key);
      }
    }
  }

  /** After any run, in whatever zones: no ledger counts more revisions than the log has. */
  lemma LedgersAreNeverAhead(commands: seq<Command>, key: DayKey)
    ensures var c := Run(commands); key in c.days.ledgers ==> c.days.ledgers[key].revision <= LedgerOf(c, key).revision
  {
    RunFallsBehind(commands);
    hide Run, LedgerOf;
  }

  lemma LeftBehindOneMore(commands: seq<Command>, last: Command, key: DayKey)
    ensures LeftBehind(commands + [last], key) <==>
      LeavesOut(Run(commands), last, key) || (LeftBehind(commands, key) && key !in Refreshes(Run(commands), last))
  {
    hide Run, LeavesOut, Refreshes;
    var n, all := |commands|, commands + [last];
    assert forall i :: 0 <= i <= n ==> all[..i] == commands[..i];
    assert commands[..n] == commands && all[n] == last;
    forall i | 0 <= i < n ensures RefreshedNoMore(all, i, key) <==> RefreshedNoMore(commands, i, key) && key !in Refreshes(Run(commands), last) {
      if RefreshedNoMore(all, i, key) {
        assert key !in Refreshes(Run(all[..n]), all[n]);
        forall j | i < j < n ensures key !in Refreshes(Run(commands[..j]), commands[j]) {
          assert key !in Refreshes(Run(all[..j]), all[j]);
        }
      }
    }
    if LeavesOut(Run(commands), last, key) {
      assert RefreshedNoMore(all, n, key) && LeavesOut(Run(all[..n]), all[n], key);
    }
    if LeftBehind(commands, key) && key !in Refreshes(Run(commands), last) {
      var i :| 0 <= i < n && LeavesOut(Run(commands[..i]), commands[i], key) && RefreshedNoMore(commands, i, key);
      assert LeavesOut(Run(all[..i]), all[i], key) && RefreshedNoMore(all, i, key);
    }
  }

  /** After any run, in whatever zones: a ledger differs from what the log gives exactly when some command left it out
      and no later one refreshed it. */
  lemma {:induction false} StaleExactly(commands: seq<Command>, key: DayKey)
    ensures Stale(Run(commands), key) <==> LeftBehind(commands, key)
  {
    if commands != [] {
      var before, last := commands[..|commands| - 1], commands[|commands| - 1];
      assert commands == before + [last];
      StaleExactly(before, key);
      RunKeepsGrounded(before);
      RunFallsBehind(before);
      assert Run(commands) == Step(Run(before), last);
      hide Run, Step, Stale, LeftBehind, LeavesOut, Refreshes, Grounded, FreshOrOutdated;
      StepStales(Run(before), last, key);
      LeftBehindOneMore(before, last, key);
    }
  }

  lemma RebuildOfStale(c: Core)
    requires Grounded(c)
    ensures Rebuild(c) == c <==> BuriedAreDeleted(c) && forall key :: !Stale(c, key)
  {
    hide Grounded, Rebuild, LedgerOf, BuriedAreDeleted;
    RebuildKeeps(c);
    if forall key :: !Stale(c, key) {
      forall key: DayKey ensures FreshAt(c, key) { assert !Stale(c, key); }
      RebuildIsIdentity(c);
    } else {
      var key :| Stale(c, key);
      assert FreshBut(c, {}) ==> FreshAt(c, key);
    }
  }

  /** The promise of rebuild, exactly and in whatever zones: after any run it changes nothing if and only if tombstoned
      events are deleted and no ledger is left behind. */
  lemma RebuildChangesNothingExactly(commands: seq<Command>)
    ensures Rebuild(Run(commands)) == Run(commands) <==>
      BuriedAreDeleted(Run(commands)) && forall key :: !LeftBehind(commands, key)
  {
    hide Run, Rebuild, Stale, LeftBehind, Grounded, BuriedAreDeleted;
    RunKeepsGrounded(commands);
    RebuildOfStale(Run(commands));
    forall key ensures Stale(Run(commands), key) <==> LeftBehind(commands, key) { StaleExactly(commands, key); }
  }

  /** What a revision leaves out: the ledgers in other zones of the day it is on, and of the day where it was listed. */
  lemma RevisionLeavesOut(c: Core, command: Command, key: DayKey)
    requires Grounded(c) && (command.Append? || command.Conflict? || command.Undo?) && Execute(c, command).Done?
    ensures var e := NextRevision(c, command);
      && e.id in c.heads.events
      && (LeavesOut(c, command, key) <==>
            && key in c.days.identities && key.zone != e.Key().zone
            && (key.day == e.On() || (WasListed(c.heads, e.id) && key.day == c.heads.events[e.id].On())))
  {
    hide LogOk, DaysOk, Step, ReplaceEvent, Execute, NextRevision, WasListed;
    RevisionIsNext(c, command);
  }

  /** And so, after any run, a revision of an event whose day has a ledger in another zone makes rebuild differ. */
  lemma OtherZoneGoesStale(commands: seq<Command>, command: Command, key: DayKey)
    requires LeavesOut(Run(commands), command, key)
    ensures Rebuild(Run(commands + [command])) != Run(commands + [command])
  {
    hide Run, Rebuild, LeavesOut, LeftBehind;
    LeftBehindOneMore(commands, command, key);
    RebuildChangesNothingExactly(commands + [command]);
  }
}
