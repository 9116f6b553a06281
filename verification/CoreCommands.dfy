/** Each command keeps the projections sound and the ledgers of all days fresh. */
module CoreCommands {
  import opened Json
  import opened CoreModel
  import opened CoreLedger

  // ---- freshness across writes ----

  lemma LedgerDependsOnDay(c: Core, d: Core, key: DayKey)
    requires SameDay(c, d, key.day) && c.days.coverage == d.days.coverage
    ensures LedgerOf(c, key) == LedgerOf(d, key)
  {
    hide EntriesOf, RevisionsOn;
  }

  function DaysOfEvents(c: Core, changed: map<Id, Event>): set<Day> {
    (set id | id in changed :: changed[id].On()) + (set id | id in changed && id in c.heads.events :: c.heads.events[id].On())
  }

  function DaysOfEpisodes(c: Core, changed: map<Id, Episode>): set<Day> {
    (set id | id in changed :: changed[id].On()) + (set id | id in changed && id in c.heads.episodes :: c.heads.episodes[id].On())
  }

  lemma DaysOfOneEvent(c: Core, e: Event)
    ensures DaysOfEvents(c, map[e.id := e]) == {e.On()} + (if e.id in c.heads.events then {c.heads.events[e.id].On()} else {})
  {
    var one := map[e.id := e];
    assert e.id in one;
    assert (set id | id in one :: one[id].On()) == {e.On()};
  }

  lemma DaysOfOneEpisode(c: Core, e: Episode)
    ensures DaysOfEpisodes(c, map[e.id := e]) == {e.On()} + (if e.id in c.heads.episodes then {c.heads.episodes[e.id].On()} else {})
  {
    var one := map[e.id := e];
    assert e.id in one;
    assert (set id | id in one :: one[id].On()) == {e.On()};
  }

  lemma PutEventsFresh(c: Core, changed: map<Id, Event>, days: set<Day>)
    requires LogOk(c) && NextEvents(c, changed) && FreshBut(c, days)
    ensures FreshBut(PutEvents(c, changed), days + DaysOfEvents(c, changed))
  {
    hide LogOk, LedgerOf, SameDay;
    var d := PutEvents(c, changed);
    forall key: DayKey | key.day !in days + DaysOfEvents(c, changed) ensures FreshAt(d, key) {
      assert FreshAt(c, key);
      assert EventsElsewhere(c, changed, key.day);
      PutEventsElsewhere(c, changed, key.day);
      LedgerDependsOnDay(c, d, key);
    }
  }

  lemma PutEpisodesFresh(c: Core, changed: map<Id, Episode>, days: set<Day>)
    requires LogOk(c) && NextEpisodes(c, changed) && FreshBut(c, days)
    ensures FreshBut(PutEpisodes(c, changed), days + DaysOfEpisodes(c, changed))
  {
    hide LogOk, LedgerOf, SameDay;
    var d := PutEpisodes(c, changed);
    forall key: DayKey | key.day !in days + DaysOfEpisodes(c, changed) ensures FreshAt(d, key) {
      assert FreshAt(c, key);
      assert EpisodesElsewhere(c, changed, key.day);
      PutEpisodesElsewhere(c, changed, key.day);
      LedgerDependsOnDay(c, d, key);
    }
  }

  /** Facts, tombstones and the id sequence play no part in ledgers. */
  lemma SideChangesKeep(c: Core, d: Core, days: set<Day>)
    requires d.heads == c.heads && d.days == c.days && d.log.events == c.log.events && d.log.episodes == c.log.episodes
    ensures FreshBut(c, days) ==> FreshBut(d, days)
  {
    if FreshBut(c, days) {
      forall key: DayKey | key.day !in days ensures FreshAt(d, key) {
        assert FreshAt(c, key);
        assert LedgerOf(c, key) == LedgerOf(d, key);
      }
    }
  }

  lemma SideChangesKeepLog(c: Core, d: Core)
    requires LogOk(c) && d.heads == c.heads && d.log == c.log && d.nextId >= c.nextId
    ensures LogOk(d)
  {
    forall v ensures EventRowOk(d, v) { assert EventRowOk(c, v); }
    forall v ensures EpisodeRowOk(d, v) { assert EpisodeRowOk(c, v); }
    forall id ensures EventHeadOk(d, id) { assert EventHeadOk(c, id); }
    forall id ensures EpisodeHeadOk(d, id) { assert EpisodeHeadOk(c, id); }
    forall id ensures GraveOk(d, id) { assert GraveOk(c, id); }
  }

  lemma BuryKeepsLog(c: Core, targets: set<Target>)
    requires LogOk(c)
    requires forall id :: EventTarget(id) in targets ==> id in c.heads.events
    requires forall id :: EpisodeTarget(id) in targets ==> id in c.heads.episodes && !c.heads.episodes[id].Live()
    ensures LogOk(Bury(c, targets)) && Grows(c, Bury(c, targets))
  {
    var d := Bury(c, targets);
    forall v ensures EventRowOk(d, v) { assert EventRowOk(c, v); }
    forall v ensures EpisodeRowOk(d, v) { assert EpisodeRowOk(c, v); }
    forall id ensures EventHeadOk(d, id) { assert EventHeadOk(c, id); }
    forall id ensures EpisodeHeadOk(d, id) { assert EpisodeHeadOk(c, id); }
    forall id ensures GraveOk(d, id) { assert GraveOk(c, id); }
  }

  // ---- one command ----

  /** What every command keeps; freshness as long as the result uses one time zone for each owner and space. */
  ghost predicate StepKeeps(c: Core, d: Core, zone: (string, string) -> string) {
    Grounded(d) && Grows(c, d) && (FreshBut(c, {}) && Zoned(d, zone) ==> FreshBut(d, {}))
  }

  lemma EventsWritten(c: Core, e: Event)
    requires Grounded(c) && NextEvent(c, e.id, e)
    ensures var d := PutEvent(c, e);
      && LogOk(d) && Grows(c, d) && d.days == c.days && d.facts == c.facts && d.nextId == c.nextId
      && d.heads.episodes == c.heads.episodes && d.heads.events == c.heads.events[e.id := e]
      && DaysOk(d, {e.Key()})
      && (FreshBut(c, {}) ==> FreshBut(d, DaysOfEvents(c, map[e.id := e])))
  {
    hide LogOk, PutEvents, FreshBut;
    PutEventIsPutEvents(c, e);
    PutEventsKeeps(c, map[e.id := e]);
    if FreshBut(c, {}) {
      PutEventsFresh(c, map[e.id := e], {});
      assert {} + DaysOfEvents(c, map[e.id := e]) == DaysOfEvents(c, map[e.id := e]);
    }
  }

  lemma EpisodesWritten(c: Core, e: Episode)
    requires Grounded(c) && NextEpisode(c, e.id, e)
    ensures var d := PutEpisode(c, e);
      && LogOk(d) && Grows(c, d) && d.days == c.days && d.heads.episodes == c.heads.episodes[e.id := e]
      && DaysOk(d, {e.Key()})
      && (FreshBut(c, {}) ==> FreshBut(d, DaysOfEpisodes(c, map[e.id := e])))
  {
    hide LogOk, PutEpisodes, FreshBut;
    PutEpisodeIsPutEpisodes(c, e);
    PutEpisodesKeeps(c, map[e.id := e]);
    if FreshBut(c, {}) {
      PutEpisodesFresh(c, map[e.id := e], {});
      assert {} + DaysOfEpisodes(c, map[e.id := e]) == DaysOfEpisodes(c, map[e.id := e]);
    }
  }

  lemma NewIdKeeps(c: Core)
    requires Grounded(c)
    ensures var d := c.(nextId := c.nextId + 1);
      && Grounded(d) && Grows(c, d) && (FreshBut(c, {}) ==> FreshBut(d, {}))
      && c.nextId !in c.heads.events && c.nextId !in c.heads.episodes
  {
    SideChangesKeepLog(c, c.(nextId := c.nextId + 1));
    SideChangesKeep(c, c.(nextId := c.nextId + 1), {});
    assert EventHeadOk(c, c.nextId) && EpisodeHeadOk(c, c.nextId);
  }

  lemma GrowsComposes(c: Core, d: Core, e: Core)
    requires Grows(c, d) && Grows(d, e)
    ensures Grows(c, e)
  {
  }

  lemma DueAnyway(c: Core, key: DayKey)
    requires DaysOk(c, {})
    ensures DaysOk(c, {key})
  {
  }

  lemma RefreshKeepsGrounded(c: Core, key: DayKey)
    requires LogOk(c) && DaysOk(c, {key})
    ensures Grounded(Refresh(c, key)) && Grows(c, Refresh(c, key))
  {
    hide LogOk, DaysOk, Refresh;
    RefreshKeeps(c, key, {key});
    assert {key} - {key} == {};
  }

  lemma RefreshClears(c: Core, key: DayKey, days: set<Day>, rest: set<Day>, zone: (string, string) -> string)
    requires FreshBut(c, days) && days - {key.day} == rest && Zoned(Refresh(c, key), zone)
    ensures FreshBut(Refresh(c, key), rest)
  {
    hide FreshBut, Refresh;
    RefreshFreshens(c, key, days, zone);
  }

  /** A write that touches one day, and its ledger refreshed. */
  lemma WriteAndRefresh(c: Core, c0: Core, key: DayKey, zone: (string, string) -> string)
    requires Grows(c, c0) && LogOk(c0) && DaysOk(c0, {key})
    requires FreshBut(c, {}) ==> FreshBut(c0, {key.day})
    ensures StepKeeps(c, Refresh(c0, key), zone)
  {
    hide Grows, LogOk, DaysOk, FreshBut, Zoned, Refresh;
    var d := Refresh(c0, key);
    RefreshKeepsGrounded(c0, key);
    GrowsComposes(c, c0, d);
    if FreshBut(c, {}) && Zoned(d, zone) {
      RefreshClears(c0, key, {key.day}, {}, zone);
    }
  }

  /** A write that moves an event from one day to another, and both ledgers refreshed. */
  lemma WriteAndRefreshBoth(c: Core, c0: Core, key: DayKey, other: DayKey, zone: (string, string) -> string)
    requires Grows(c, c0) && LogOk(c0) && DaysOk(c0, {key}) && key.day != other.day
    requires FreshBut(c, {}) ==> FreshBut(c0, {key.day, other.day})
    ensures StepKeeps(c, Refresh(Refresh(c0, key), other), zone)
  {
    hide Grows, LogOk, DaysOk, FreshBut, Zoned, Refresh;
    var c1 := Refresh(c0, key);
    var d := Refresh(c1, other);
    RefreshKeepsGrounded(c0, key);
    DueAnyway(c1, other);
    RefreshKeepsGrounded(c1, other);
    GrowsComposes(c, c0, c1);
    GrowsComposes(c, c1, d);
    if FreshBut(c, {}) && Zoned(d, zone) {
      GrowsKeepsZones(c1, d, zone);
      RefreshClears(c0, key, {key.day, other.day}, {other.day}, zone);
      RefreshClears(c1, other, {other.day}, {}, zone);
    }
  }

  lemma AddEventKeeps(c: Core, e: Event, zone: (string, string) -> string)
    requires Grounded(c) && e.id == c.nextId && e.revision == 1
    ensures StepKeeps(c, AddEvent(c, e), zone)
  {
    hide DaysOfEvents, LogOk, PutEvent, Refresh, FreshBut, Grows, DaysOk, Zoned, StepKeeps;
    var c0 := c.(nextId := c.nextId + 1);
    NewIdKeeps(c);
    EventsWritten(c0, e);
    DaysOfOneEvent(c0, e);
    assert {e.On()} + {} == {e.Key().day};
    GrowsComposes(c, c0, PutEvent(c0, e));
    WriteAndRefresh(c, PutEvent(c0, e), e.Key(), zone);
  }

  lemma AddEpisodeKeeps(c: Core, e: Episode, zone: (string, string) -> string)
    requires Grounded(c) && e.id == c.nextId && e.revision == 1
    ensures StepKeeps(c, AddEpisode(c, e), zone)
  {
    hide DaysOfEpisodes, LogOk, PutEpisode, Refresh, FreshBut, Grows, DaysOk, Zoned, StepKeeps;
    var c0 := c.(nextId := c.nextId + 1);
    NewIdKeeps(c);
    EpisodesWritten(c0, e);
    DaysOfOneEpisode(c0, e);
    assert {e.On()} + {} == {e.Key().day};
    GrowsComposes(c, c0, PutEpisode(c0, e));
    WriteAndRefresh(c, PutEpisode(c0, e), e.Key(), zone);
  }

  lemma ReplaceEventKeeps(c: Core, e: Event, zone: (string, string) -> string)
    requires Grounded(c) && e.id in c.heads.events && NextEvent(c, e.id, e)
    requires e.owner == c.heads.events[e.id].owner && e.space == c.heads.events[e.id].space
    ensures StepKeeps(c, ReplaceEvent(c, e), zone)
  {
    hide DaysOfEvents, LogOk, PutEvent, Refresh, FreshBut, Grows, DaysOk, Zoned, StepKeeps;
    var before := c.heads.events[e.id];
    EventsWritten(c, e);
    DaysOfOneEvent(c, e);
    if before.date != e.date {
      assert {e.On()} + {before.On()} == {e.Key().day, before.On()};
      WriteAndRefreshBoth(c, PutEvent(c, e), e.Key(), DayKey(before.On(), e.Key().zone), zone);
    } else {
      assert {e.On()} + {before.On()} == {e.Key().day};
      WriteAndRefresh(c, PutEvent(c, e), e.Key(), zone);
    }
  }

  lemma AppendKeeps(c: Core, id: Id, base: nat, changes: Changes, evidence: Option<seq<Evidence>>, now: int,
                    zone: (string, string) -> string)
    requires Grounded(c) && AppendRevision(c, id, base, changes, evidence, now).Done?
    ensures StepKeeps(c, AppendRevision(c, id, base, changes, evidence, now).core, zone)
  {
    var e := AppendedEvent(c, id, changes, evidence, now);
    assert EventHeadOk(c, id);
    assert NextEvent(c, id, e);
    hide LogOk, ReplaceEvent, StepKeeps;
    ReplaceEventKeeps(c, e, zone);
  }

  // ---- deletion ----

  lemma DeletionRevises(c: Core, source: Id, now: int)
    requires Grounded(c)
    ensures var events := RecomputedEvents(c, source, now);
      && NextEvents(c, events)
      && (forall id :: id in events ==> id in c.heads.events && events[id].Key() == c.heads.events[id].Key())
  {
    var events := RecomputedEvents(c, source, now);
    forall id | id in events ensures NextEvent(c, id, events[id]) && events[id].Key() == c.heads.events[id].Key() {
      assert EventHeadOk(c, id);
    }
  }

  lemma DeletionThins(c: Core, d: Core, gone: set<Id>, now: int)
    requires LogOk(c) && d.heads.episodes == c.heads.episodes && d.nextId == c.nextId
    ensures var episodes := ThinnedEpisodes(c, gone, now);
      && NextEpisodes(d, episodes)
      && (forall id :: id in episodes ==> id in c.heads.episodes && episodes[id].Key() == c.heads.episodes[id].Key())
  {
    var episodes := ThinnedEpisodes(c, gone, now);
    forall id | id in episodes ensures NextEpisode(d, id, episodes[id]) && episodes[id].Key() == c.heads.episodes[id].Key() {
      assert EpisodeHeadOk(c, id);
    }
  }

  lemma PutEventsParts(c: Core, changed: map<Id, Event>)
    ensures var d := PutEvents(c, changed);
      && d.facts == c.facts && d.days == c.days && d.nextId == c.nextId && d.log.tombstones == c.log.tombstones
      && d.log.episodes == c.log.episodes && d.heads.episodes == c.heads.episodes
      && d.heads.events == c.heads.events + changed
  {
  }

  lemma PutEpisodesParts(c: Core, changed: map<Id, Episode>)
    ensures var d := PutEpisodes(c, changed);
      && d.facts == c.facts && d.days == c.days && d.nextId == c.nextId && d.log.tombstones == c.log.tombstones
      && d.log.events == c.log.events && d.heads.events == c.heads.events && d.heads.index == c.heads.index
      && d.heads.episodes == c.heads.episodes + changed
  {
  }

  /** New revisions of events and episodes that stay on their days and keys. */
  ghost predicate InPlaceEvents(c: Core, changed: map<Id, Event>) {
    && NextEvents(c, changed)
    && forall id :: id in changed ==> id in c.heads.events && changed[id].Key() == c.heads.events[id].Key()
  }

  ghost predicate InPlaceEpisodes(c: Core, changed: map<Id, Episode>) {
    && NextEpisodes(c, changed)
    && forall id :: id in changed ==> id in c.heads.episodes && changed[id].Key() == c.heads.episodes[id].Key()
  }

  lemma DaysInPlace(c: Core, events: map<Id, Event>, episodes: map<Id, Episode>)
    requires InPlaceEvents(c, events) && InPlaceEpisodes(c, episodes)
    ensures forall day :: day in DaysOfEvents(c, events) ==> exists id :: id in events && events[id].On() == day
    ensures forall day :: day in DaysOfEpisodes(c, episodes) ==> exists id :: id in episodes && episodes[id].On() == day
  {
    forall id | id in events ensures events[id].On() == c.heads.events[id].On() {
      assert events[id].Key() == c.heads.events[id].Key();
    }
    forall id | id in episodes ensures episodes[id].On() == c.heads.episodes[id].On() {
      assert episodes[id].Key() == c.heads.episodes[id].Key();
    }
  }

  lemma InPlaceKeepsDays(c: Core, events: map<Id, Event>, episodes: map<Id, Episode>, d: Core)
    requires DaysOk(c, {}) && InPlaceEvents(c, events) && InPlaceEpisodes(c, episodes)
    requires d.days == c.days && d.heads.events == c.heads.events + events && d.heads.episodes == c.heads.episodes + episodes
    ensures DaysOk(d, {}) && KeysOf(events, episodes) <= d.days.identities.Keys
  {
    forall id | id in d.heads.events ensures d.heads.events[id].Key() in d.days.identities.Keys + {} {
      assert id in c.heads.events;
    }
    forall id | id in d.heads.episodes ensures d.heads.episodes[id].Key() in d.days.identities.Keys + {} {
      assert id in c.heads.episodes;
    }
  }

  lemma OnlyMore(c: Core, d: Core)
    requires d.log.events == c.log.events && d.log.episodes == c.log.episodes
    requires c.log.tombstones <= d.log.tombstones && d.days.identities == c.days.identities
    ensures Grows(c, d)
  {
  }

  lemma SameHeadsSameNext(c: Core, c1: Core, c2: Core, events: map<Id, Event>, episodes: map<Id, Episode>)
    requires NextEvents(c, events) && NextEpisodes(c, episodes)
    requires c1.heads.events == c.heads.events && c1.nextId == c.nextId
    requires c2.heads.episodes == c.heads.episodes && c2.nextId == c.nextId
    ensures NextEvents(c1, events) && NextEpisodes(c2, episodes)
    ensures DaysOfEvents(c1, events) == DaysOfEvents(c, events) && DaysOfEpisodes(c2, episodes) == DaysOfEpisodes(c, episodes)
  {
    forall id | id in events ensures NextEvent(c1, id, events[id]) { assert NextEvent(c, id, events[id]); }
    forall id | id in episodes ensures NextEpisode(c2, id, episodes[id]) { assert NextEpisode(c, id, episodes[id]); }
  }

  /** The three writes of a deletion, before the ledgers are refreshed. */
  lemma DeletionWrites(c: Core, facts: Facts, events: map<Id, Event>, episodes: map<Id, Episode>, graves: set<Target>)
    requires Grounded(c) && InPlaceEvents(c, events) && InPlaceEpisodes(c, episodes)
    requires forall id :: EventTarget(id) in graves ==> id in events
    requires forall id :: EpisodeTarget(id) in graves ==> id in episodes && !episodes[id].Live()
    ensures var c4 := Bury(PutEpisodes(PutEvents(c.(facts := facts), events), episodes), graves);
      && Grounded(c4) && Grows(c, c4) && KeysOf(events, episodes) <= c4.days.identities.Keys
      && (FreshBut(c, {}) ==> FreshBut(c4, DaysOfEvents(c, events) + DaysOfEpisodes(c, episodes)))
  {
    hide LogOk, FreshBut, Grows, NextEvents, NextEpisodes, DaysOfEvents, DaysOfEpisodes, KeysOf, EventRows, EpisodeRows, Reindexed;
    var c1 := c.(facts := facts);
    var c2 := PutEvents(c1, events);
    var c3 := PutEpisodes(c2, episodes);
    PutEventsParts(c1, events);
    PutEpisodesParts(c2, episodes);
    InPlaceKeepsDays(c, events, episodes, Bury(c3, graves));
    SameHeadsSameNext(c, c1, c2, events, episodes);
    hide DaysOk, PutEvents, PutEpisodes;
    SideChangesKeepLog(c, c1);
    PutEventsKeeps(c1, events);
    PutEpisodesKeeps(c2, episodes);
    BuryKeepsLog(c3, graves);
    DeletionGrows(c, c1, c2, c3, Bury(c3, graves));
    if FreshBut(c, {}) {
      DeletionFresh(c, c1, events, episodes, graves);
    }
  }

  lemma DeletionGrows(c: Core, c1: Core, c2: Core, c3: Core, c4: Core)
    requires c1 == c.(facts := c1.facts) && Grows(c1, c2) && Grows(c2, c3) && Grows(c3, c4)
    ensures Grows(c, c4)
  {
    OnlyMore(c, c1);
    hide Grows;
    GrowsComposes(c, c1, c2);
    GrowsComposes(c, c2, c3);
    GrowsComposes(c, c3, c4);
  }

  lemma DeletionFresh(c: Core, c1: Core, events: map<Id, Event>, episodes: map<Id, Episode>, graves: set<Target>)
    requires c1 == c.(facts := c1.facts) && FreshBut(c, {}) && LogOk(c1) && NextEvents(c1, events)
    requires LogOk(PutEvents(c1, events)) && NextEpisodes(PutEvents(c1, events), episodes)
    requires DaysOfEvents(c1, events) == DaysOfEvents(c, events)
    requires DaysOfEpisodes(PutEvents(c1, events), episodes) == DaysOfEpisodes(c, episodes)
    ensures FreshBut(Bury(PutEpisodes(PutEvents(c1, events), episodes), graves), DaysOfEvents(c, events) + DaysOfEpisodes(c, episodes))
  {
    hide LogOk, PutEvents, PutEpisodes, FreshBut, NextEvents, NextEpisodes, DaysOfEvents, DaysOfEpisodes;
    var c3 := PutEpisodes(PutEvents(c1, events), episodes);
    SideChangesKeep(c, c1, {});
    PutEventsFresh(c1, events, {});
    PutEpisodesFresh(PutEvents(c1, events), episodes, {} + DaysOfEvents(c, events));
    assert {} + DaysOfEvents(c, events) == DaysOfEvents(c, events);
    SideChangesKeep(c3, Bury(c3, graves), DaysOfEvents(c, events) + DaysOfEpisodes(c, episodes));
  }

  /** The keys a deletion refreshes are all the ledgers of the days it touched, when an owner and space has one zone. */
  lemma TouchedKeysCover(c: Core, events: map<Id, Event>, episodes: map<Id, Episode>, d: Core, zone: (string, string) -> string)
    requires InPlaceEvents(c, events) && InPlaceEpisodes(c, episodes) && Zoned(d, zone)
    requires forall id :: id in events ==>
      Version(id, events[id].revision) in d.log.events && d.log.events[Version(id, events[id].revision)] == events[id]
    requires forall id :: id in episodes ==>
      Version(id, episodes[id].revision) in d.log.episodes && d.log.episodes[Version(id, episodes[id].revision)] == episodes[id]
    ensures forall key :: key in d.days.identities && key.day in DaysOfEvents(c, events) + DaysOfEpisodes(c, episodes) ==> key in KeysOf(events, episodes)
  {
    DaysInPlace(c, events, episodes);
    forall key | key in d.days.identities && key.day in DaysOfEvents(c, events) + DaysOfEpisodes(c, episodes)
      ensures key in KeysOf(events, episodes)
    {
      assert InZone(key, zone);
      if key.day in DaysOfEvents(c, events) {
        var id :| id in events && events[id].On() == key.day;
        assert InZone(d.log.events[Version(id, events[id].revision)].Key(), zone);
        assert key == events[id].Key();
      } else {
        var id :| id in episodes && episodes[id].On() == key.day;
        assert InZone(d.log.episodes[Version(id, episodes[id].revision)].Key(), zone);
        assert key == episodes[id].Key();
      }
    }
  }

  /** A deletion's writes and refreshes. */
  lemma DeletionRefreshes(c: Core, facts: Facts, events: map<Id, Event>, episodes: map<Id, Episode>, graves: set<Target>,
                          zone: (string, string) -> string)
    requires Grounded(c) && InPlaceEvents(c, events) && InPlaceEpisodes(c, episodes)
    requires forall id :: EventTarget(id) in graves ==> id in events
    requires forall id :: EpisodeTarget(id) in graves ==> id in episodes && !episodes[id].Live()
    ensures var c4 := Bury(PutEpisodes(PutEvents(c.(facts := facts), events), episodes), graves);
      StepKeeps(c, RefreshAll(c4, KeysOf(events, episodes)), zone)
  {
    var c4 := Bury(PutEpisodes(PutEvents(c.(facts := facts), events), episodes), graves);
    var keys := KeysOf(events, episodes);
    var d := RefreshAll(c4, keys);
    assert d.log == c4.log && d.days.identities == c4.days.identities;
    assert forall id :: id in events ==>
      Version(id, events[id].revision) in d.log.events && d.log.events[Version(id, events[id].revision)] == events[id];
    assert forall id :: id in episodes ==>
      Version(id, episodes[id].revision) in d.log.episodes && d.log.episodes[Version(id, episodes[id].revision)] == episodes[id];
    hide LogOk, PutEvents, PutEpisodes, RefreshAll, Bury, FreshBut, Grows, DaysOk, InPlaceEvents, InPlaceEpisodes, DaysOfEvents, DaysOfEpisodes, KeysOf, Zoned;
    DeletionWrites(c, facts, events, episodes, graves);
    RefreshAllKeeps(c4, keys);
    GrowsComposes(c, c4, d);
    if FreshBut(c, {}) && Zoned(d, zone) {
      TouchedKeysCover(c, events, episodes, d, zone);
      RefreshAllFreshens(c4, keys, DaysOfEvents(c, events) + DaysOfEpisodes(c, episodes));
    }
  }

  lemma GravesAreOfChanged(c: Core, source: Id, now: int)
    ensures var events := RecomputedEvents(c, source, now);
      var episodes := ThinnedEpisodes(c, Gone(c, source), now);
      && (forall id :: EventTarget(id) in Graves(c, source, now) ==> id in events)
      && (forall id :: EpisodeTarget(id) in Graves(c, source, now) ==> id in episodes && !episodes[id].Live())
  {
    hide Thinned, Recomputed, Wiped;
  }

  lemma DeletionKeeps(c: Core, source: Id, now: int, zone: (string, string) -> string)
    requires Grounded(c) && source in c.facts.sources
    ensures StepKeeps(c, Deletion(c, source, now), zone)
  {
    hide LogOk, PutEvents, PutEpisodes, RefreshAll, Bury, FreshBut, Grows, DaysOk, KeysOf, Zoned, NextEvents, NextEpisodes,
      MarkDeleted, ThinnedEpisodes, RecomputedEvents, StepKeeps, Gone, Graves;
    var events := RecomputedEvents(c, source, now);
    var episodes := ThinnedEpisodes(c, Gone(c, source), now);
    DeletionRevises(c, source, now);
    DeletionThins(c, c, Gone(c, source), now);
    GravesAreOfChanged(c, source, now);
    DeletionRefreshes(c, MarkDeleted(c.facts, source), events, episodes, Graves(c, source, now), zone);
  }
}
