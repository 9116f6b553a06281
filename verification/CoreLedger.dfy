/** Projections agree with the log: every command keeps the current rows, the search rows and the day ledgers equal to
    what rebuild computes from the revisions. */
module CoreLedger {
  import opened CoreModel

  // ---- the log and the heads ----

  ghost predicate EventRowOk(c: Core, v: Version) {
    v in c.log.events ==>
      && c.log.events[v].id == v.id && c.log.events[v].revision == v.revision
      && v.id in c.heads.events && 1 <= v.revision <= c.heads.events[v.id].revision
  }

  /** The current row is the newest revision, except that a rebuild may have buried it. */
  ghost predicate EventHeadOk(c: Core, id: Id) {
    id in c.heads.events ==>
      var e := c.heads.events[id];
      var v := Version(id, e.revision);
      && e.id == id && id < c.nextId && e.revision >= 1 && v in c.log.events
      && (e == c.log.events[v] || e == BuriedEvent(c.log, c.log.events[v]))
  }

  ghost predicate EpisodeRowOk(c: Core, v: Version) {
    v in c.log.episodes ==>
      && c.log.episodes[v].id == v.id && c.log.episodes[v].revision == v.revision
      && v.id in c.heads.episodes && 1 <= v.revision <= c.heads.episodes[v.id].revision
  }

  ghost predicate EpisodeHeadOk(c: Core, id: Id) {
    id in c.heads.episodes ==>
      var e := c.heads.episodes[id];
      var v := Version(id, e.revision);
      && e.id == id && id < c.nextId && e.revision >= 1 && v in c.log.episodes && e == c.log.episodes[v]
  }

  /** Only events and episodes that exist are buried, and a buried episode is deleted for good. */
  ghost predicate GraveOk(c: Core, id: Id) {
    && (EventTarget(id) in c.log.tombstones ==> id in c.heads.events)
    && (EpisodeTarget(id) in c.log.tombstones ==> id in c.heads.episodes && !c.heads.episodes[id].Live())
  }

  ghost predicate LogOk(c: Core) {
    && (forall v :: EventRowOk(c, v))
    && (forall v :: EpisodeRowOk(c, v))
    && (forall id :: EventHeadOk(c, id))
    && (forall id :: EpisodeHeadOk(c, id))
    && (forall id :: GraveOk(c, id))
    && c.heads.index == IndexOf(c.heads.events)
  }

  // ---- the day tables ----

  /** The keys in `due` are about to be refreshed. */
  ghost predicate DaysOk(c: Core, due: set<DayKey>) {
    && c.days.identities.Keys + due == c.days.ledgers.Keys + due
    && c.days.coverage.Keys <= c.days.identities.Keys + due
    && (forall id :: id in c.heads.events ==> c.heads.events[id].Key() in c.days.identities.Keys + due)
    && (forall id :: id in c.heads.episodes ==> c.heads.episodes[id].Key() in c.days.identities.Keys + due)
  }

  ghost predicate Grounded(c: Core) {
    LogOk(c) && DaysOk(c, {})
  }

  ghost predicate FreshAt(c: Core, key: DayKey) {
    key in c.days.identities && key in c.days.ledgers ==> c.days.ledgers[key] == LedgerOf(c, key)
  }

  /** The ledgers of all other days are what would be computed now. */
  ghost predicate FreshBut(c: Core, days: set<Day>) {
    forall key: DayKey :: key.day !in days ==> FreshAt(c, key)
  }

  /** One time zone for each owner and space: the log and the ledger identities use no other. */
  ghost predicate Zoned(c: Core, zone: (string, string) -> string) {
    && (forall v :: v in c.log.events ==> InZone(c.log.events[v].Key(), zone))
    && (forall v :: v in c.log.episodes ==> InZone(c.log.episodes[v].Key(), zone))
    && (forall key :: key in c.days.identities ==> InZone(key, zone))
  }

  ghost predicate InZone(key: DayKey, zone: (string, string) -> string) {
    key.zone == zone(key.day.owner, key.day.space)
  }

  ghost predicate Grows(c: Core, d: Core) {
    && (forall v :: v in c.log.events ==> v in d.log.events && d.log.events[v] == c.log.events[v])
    && (forall v :: v in c.log.episodes ==> v in d.log.episodes && d.log.episodes[v] == c.log.episodes[v])
    && (forall key :: key in c.days.identities ==> key in d.days.identities)
    && c.log.tombstones <= d.log.tombstones
  }

  lemma GrowsKeepsZones(c: Core, d: Core, zone: (string, string) -> string)
    requires Grows(c, d) && Zoned(d, zone)
    ensures Zoned(c, zone)
  {
    forall v | v in c.log.events ensures InZone(c.log.events[v].Key(), zone) {
      assert v in d.log.events;
    }
    forall v | v in c.log.episodes ensures InZone(c.log.episodes[v].Key(), zone) {
      assert v in d.log.episodes;
    }
  }

  // ---- refreshing a ledger ----

  lemma RefreshKeeps(c: Core, key: DayKey, due: set<DayKey>)
    requires LogOk(c) && DaysOk(c, due)
    ensures LogOk(Refresh(c, key)) && DaysOk(Refresh(c, key), due - {key}) && Grows(c, Refresh(c, key))
    ensures Refresh(c, key).heads == c.heads && Refresh(c, key).log == c.log && Refresh(c, key).facts == c.facts
  {
    var d := Refresh(c, key);
    assert LogOk(d) by {
      forall v ensures EventRowOk(d, v) { assert EventRowOk(c, v); }
      forall v ensures EpisodeRowOk(d, v) { assert EpisodeRowOk(c, v); }
      forall id ensures EventHeadOk(d, id) { assert EventHeadOk(c, id); }
      forall id ensures EpisodeHeadOk(d, id) { assert EpisodeHeadOk(c, id); }
      forall id ensures GraveOk(d, id) { assert GraveOk(c, id); }
    }
    assert d.days.identities.Keys == c.days.identities.Keys + {key};
    assert d.days.ledgers.Keys == c.days.ledgers.Keys + {key};
  }

  lemma RefreshFreshens(c: Core, key: DayKey, days: set<Day>, zone: (string, string) -> string)
    requires FreshBut(c, days)
    requires forall k :: k in Refresh(c, key).days.identities ==> InZone(k, zone)
    ensures FreshBut(Refresh(c, key), days - {key.day})
  {
    hide EntriesOf, RevisionsOn;
    var d := Refresh(c, key);
    forall k: DayKey | k.day !in days - {key.day} ensures FreshAt(d, k) {
      assert k != key ==> LedgerOf(d, k) == LedgerOf(c, k);
      assert FreshAt(c, k) || k.day in days;
      assert key in d.days.identities;
      assert k.day == key.day && k in d.days.identities ==> InZone(k, zone) && InZone(key, zone);
    }
  }

  lemma RefreshAllKeeps(c: Core, keys: set<DayKey>)
    requires LogOk(c) && DaysOk(c, {}) && keys <= c.days.identities.Keys
    ensures Grounded(RefreshAll(c, keys)) && Grows(c, RefreshAll(c, keys))
  {
    var d := RefreshAll(c, keys);
    assert LogOk(d) by {
      forall v ensures EventRowOk(d, v) { assert EventRowOk(c, v); }
      forall v ensures EpisodeRowOk(d, v) { assert EpisodeRowOk(c, v); }
      forall id ensures EventHeadOk(d, id) { assert EventHeadOk(c, id); }
      forall id ensures EpisodeHeadOk(d, id) { assert EpisodeHeadOk(c, id); }
      forall id ensures GraveOk(d, id) { assert GraveOk(c, id); }
    }
    assert d.days.ledgers.Keys == c.days.ledgers.Keys;
  }

  lemma RefreshAllFreshens(c: Core, keys: set<DayKey>, days: set<Day>)
    requires FreshBut(c, days)
    requires forall key :: key in c.days.identities && key.day in days ==> key in keys
    ensures FreshBut(RefreshAll(c, keys), {})
  {
    hide EntriesOf, RevisionsOn;
    var d := RefreshAll(c, keys);
    forall k ensures FreshAt(d, k) {
      assert FreshAt(c, k) || k.day in days;
      assert LedgerOf(d, k) == LedgerOf(c, k);
    }
  }

  // ---- writing revisions ----

  /** New revisions of events: the first of a new event, or the next of one that exists. */
  ghost predicate NextEvents(c: Core, changed: map<Id, Event>) {
    forall id :: id in changed ==> NextEvent(c, id, changed[id])
  }

  ghost predicate NextEvent(c: Core, id: Id, e: Event) {
    && e.id == id && id < c.nextId
    && e.revision == (if id in c.heads.events then c.heads.events[id].revision + 1 else 1)
  }

  ghost predicate NextEpisodes(c: Core, changed: map<Id, Episode>) {
    forall id :: id in changed ==> NextEpisode(c, id, changed[id])
  }

  ghost predicate NextEpisode(c: Core, id: Id, e: Episode) {
    && e.id == id && id < c.nextId
    && e.revision == (if id in c.heads.episodes then c.heads.episodes[id].revision + 1 else 1)
    && (id in c.heads.episodes ==> c.heads.episodes[id].Live())
  }

  lemma PutEventIsPutEvents(c: Core, e: Event)
    ensures PutEvent(c, e) == PutEvents(c, map[e.id := e])
  {
    hide EventRows, Reindexed, IndexOf;
    assert c.log.events + EventRows(map[e.id := e]) == c.log.events[Version(e.id, e.revision) := e];
    assert c.heads.events + map[e.id := e] == c.heads.events[e.id := e];
    ReindexOne(c.heads, e);
  }

  lemma ReindexOne(h: Heads, e: Event)
    ensures Reindexed(h.index, map[e.id := e]) == UpsertEvent(h, e).index
  {
    var one := map[e.id := e];
    assert IndexOf(one) == if e.Live() then map[e.id := Indexed(e.title, e.description)] else map[];
    assert one.Keys == {e.id};
  }

  lemma PutEpisodeIsPutEpisodes(c: Core, e: Episode)
    ensures PutEpisode(c, e) == PutEpisodes(c, map[e.id := e])
  {
    hide EpisodeRows;
    assert c.log.episodes + EpisodeRows(map[e.id := e]) == c.log.episodes[Version(e.id, e.revision) := e];
    assert c.heads.episodes + map[e.id := e] == c.heads.episodes[e.id := e];
  }

  lemma ReindexKeeps(events: map<Id, Event>, changed: map<Id, Event>)
    ensures Reindexed(IndexOf(events), changed) == IndexOf(events + changed)
  {
  }

  lemma PutEventsKeepsRows(c: Core, changed: map<Id, Event>)
    requires LogOk(c) && NextEvents(c, changed)
    ensures forall v :: EventRowOk(PutEvents(c, changed), v)
    ensures forall v :: v in c.log.events ==> v in PutEvents(c, changed).log.events && PutEvents(c, changed).log.events[v] == c.log.events[v]
  {
    hide EventRows, Reindexed, IndexOf;
    var d := PutEvents(c, changed);
    forall v ensures EventRowOk(d, v) && (v in c.log.events ==> v in d.log.events && d.log.events[v] == c.log.events[v]) {
      assert EventRowOk(c, v);
      assert v.id in changed ==> NextEvent(c, v.id, changed[v.id]);
    }
  }

  lemma PutEventsKeeps(c: Core, changed: map<Id, Event>)
    requires LogOk(c) && NextEvents(c, changed)
    ensures LogOk(PutEvents(c, changed)) && Grows(c, PutEvents(c, changed))
  {
    hide EventRows, Reindexed, IndexOf;
    var d := PutEvents(c, changed);
    PutEventsKeepsRows(c, changed);
    ReindexKeeps(c.heads.events, changed);
    forall id ensures EventHeadOk(d, id) {
      assert EventHeadOk(c, id);
      assert id in changed ==> NextEvent(c, id, changed[id]);
      if id in d.heads.events && id !in changed {
        assert Version(id, d.heads.events[id].revision) in c.log.events;
      }
    }
    forall v ensures EpisodeRowOk(d, v) { assert EpisodeRowOk(c, v); }
    forall id ensures EpisodeHeadOk(d, id) { assert EpisodeHeadOk(c, id); }
    forall id ensures GraveOk(d, id) { assert GraveOk(c, id); }
  }

  lemma PutEpisodesKeeps(c: Core, changed: map<Id, Episode>)
    requires LogOk(c) && NextEpisodes(c, changed)
    ensures LogOk(PutEpisodes(c, changed)) && Grows(c, PutEpisodes(c, changed))
  {
    var d := PutEpisodes(c, changed);
    forall v ensures EpisodeRowOk(d, v) {
      assert EpisodeRowOk(c, v);
      assert v.id in changed ==> NextEpisode(c, v.id, changed[v.id]);
    }
    forall id ensures EpisodeHeadOk(d, id) {
      assert EpisodeHeadOk(c, id);
      assert id in changed ==> NextEpisode(c, id, changed[id]);
      if id in d.heads.episodes && id !in changed {
        assert Version(id, d.heads.episodes[id].revision) in c.log.episodes;
      }
    }
    forall v ensures EventRowOk(d, v) { assert EventRowOk(c, v); }
    forall id ensures EventHeadOk(d, id) { assert EventHeadOk(c, id); }
    forall id ensures GraveOk(d, id) {
      assert GraveOk(c, id);
      assert id in changed ==> NextEpisode(c, id, changed[id]);
    }
    forall v | v in c.log.episodes ensures v in d.log.episodes && d.log.episodes[v] == c.log.episodes[v] {
      assert EpisodeRowOk(c, v);
      assert v.id in changed ==> NextEpisode(c, v.id, changed[v.id]);
    }
  }

  // ---- which days a revision touches ----

  /** No changed event is, or was, on the day. */
  ghost predicate EventsElsewhere(c: Core, changed: map<Id, Event>, day: Day) {
    forall id :: id in changed ==> changed[id].On() != day && (id in c.heads.events ==> c.heads.events[id].On() != day)
  }

  ghost predicate EpisodesElsewhere(c: Core, changed: map<Id, Episode>, day: Day) {
    forall id :: id in changed ==> changed[id].On() != day && (id in c.heads.episodes ==> c.heads.episodes[id].On() != day)
  }

  ghost predicate SameDay(c: Core, d: Core, day: Day) {
    EntriesOf(c.heads, day) == EntriesOf(d.heads, day) && RevisionsOn(c.log, day) == RevisionsOn(d.log, day)
  }

  /** The entries of a day depend on the live events and episodes of that day only. */
  lemma EntriesDependOnDay(h: Heads, k: Heads, day: Day)
    requires EventsOn(h, day) == EventsOn(k, day) && EpisodesOn(h, day) == EpisodesOn(k, day)
    requires forall id :: id in EventsOn(h, day) ==> h.events[id] == k.events[id]
    requires forall id :: id in EpisodesOn(h, day) ==> h.episodes[id] == k.episodes[id]
    ensures EntriesOf(h, day) == EntriesOf(k, day)
  {
    hide EventsOn, EpisodesOn;
    var e, f := EntriesOf(h, day), EntriesOf(k, day);
    assert forall id :: InEpisodeOn(h, day, id) == InEpisodeOn(k, day, id);
  }

  lemma PutEventsElsewhere(c: Core, changed: map<Id, Event>, day: Day)
    requires LogOk(c) && NextEvents(c, changed) && EventsElsewhere(c, changed, day)
    ensures SameDay(c, PutEvents(c, changed), day)
  {
    hide EventRows, Reindexed, IndexOf, EntriesOf, LogOk;
    var d := PutEvents(c, changed);
    PutEventsKeepsRows(c, changed);
    EntriesDependOnDay(c.heads, d.heads, day);
    assert (set v | v in c.log.events && c.log.events[v].On() == day) == (set v | v in d.log.events && d.log.events[v].On() == day);
  }

  lemma PutEpisodesElsewhere(c: Core, changed: map<Id, Episode>, day: Day)
    requires LogOk(c) && NextEpisodes(c, changed) && EpisodesElsewhere(c, changed, day)
    ensures SameDay(c, PutEpisodes(c, changed), day)
  {
    hide EpisodeRows, EntriesOf, LogOk;
    var d := PutEpisodes(c, changed);
    PutEpisodesKeeps(c, changed);
    EntriesDependOnDay(c.heads, d.heads, day);
    assert (set v | v in c.log.episodes && c.log.episodes[v].On() == day) == (set v | v in d.log.episodes && d.log.episodes[v].On() == day);
  }
}
