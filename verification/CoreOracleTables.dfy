/** The Core store as the program has it: tables changed in place, row by row, by the same commands. */
module CoreOracleTables {
  import opened Json
  import opened CoreModel
  import opened CoreLedger
  import opened CoreCommands
  import opened CoreRebuild
  import opened CoreCascade

  ghost predicate HeadsFound<T>(rows: map<Version, T>, heads: map<Id, Version>) {
    && (forall v :: IsHead(rows, v) <==> v.id in heads && heads[v.id] == v)
    && (forall id :: id in heads ==> heads[id].id == id && heads[id] in rows)
  }

  /** The newest version of every id: the grouped MAX(revision) of rebuild. */
  method NewestVersions<T>(rows: map<Version, T>) returns (heads: map<Id, Version>)
    ensures HeadsFound(rows, heads)
  {
    heads := map[];
    var todo := rows.Keys;
    while todo != {}
      invariant todo <= rows.Keys
      invariant forall id :: id in heads ==> heads[id].id == id && heads[id] in rows
      invariant forall v :: v in rows && v !in todo ==> v.id in heads && v.revision <= heads[v.id].revision
      decreases todo
    {
      var v :| v in todo;
      if v.id !in heads || heads[v.id].revision < v.revision {
        heads := heads[v.id := v];
      }
      todo := todo - {v};
    }
    forall v ensures IsHead(rows, v) <==> v.id in heads && heads[v.id] == v {
      if IsHead(rows, v) {
        assert heads[v.id].revision <= v.revision;
      }
    }
  }

  lemma AfterOneMore(seen: Observations, source: Id, evidence: seq<Evidence>, ev: Evidence)
    ensures EvidenceAfter(seen, source, evidence + [ev]) ==
            EvidenceAfter(seen, source, evidence) + (if Stripped(seen, source, ev).observations == {} then [] else [Stripped(seen, source, ev)])
  {
    AfterConcat(seen, source, evidence, [ev]);
    hide Stripped;
    assert [ev][1..] == [];
    assert EvidenceAfter(seen, source, []) == [];
  }

  /** _evidence_after_source_deletion. */
  method EvidenceAfterSourceDeletion(seen: Observations, evidence: seq<Evidence>, source: Id) returns (remaining: seq<Evidence>, known: bool)
    ensures known <==> forall o :: o in ObservationsIn(evidence) ==> o in seen
    ensures known ==> remaining == EvidenceAfter(seen, source, evidence)
  {
    hide Stripped, EvidenceAfter;
    remaining, known := [], true;
    assert EvidenceAfter(seen, source, []) == [] by { NothingAfter(seen, source); }
    for i := 0 to |evidence|
      invariant known && forall o :: o in ObservationsIn(evidence[..i]) ==> o in seen
      invariant remaining == EvidenceAfter(seen, source, evidence[..i])
    {
      var ev := evidence[i];
      if !(ev.observations <= seen.Keys) {
        var o :| o in ev.observations && o !in seen;
        assert ev in evidence && o in ObservationsIn(evidence);
        known := false;
        return;
      }
      var left := Stripped(seen, source, ev);
      AfterOneMore(seen, source, evidence[..i], ev);
      assert evidence[..i + 1] == evidence[..i] + [ev];
      if left.observations != {} {
        remaining := remaining + [left];
      }
    }
    assert evidence[..|evidence|] == evidence;
  }

  lemma NothingAfter(seen: Observations, source: Id)
    ensures EvidenceAfter(seen, source, []) == []
  {
  }

  class CoreOracle {
    var sources: map<Id, Source>
    var observations: Observations
    var eventRevisions: map<Version, Event>
    var episodeRevisions: map<Version, Episode>
    var tombstones: set<Target>
    var eventsCurrent: map<Id, Event>
    var recallFts: map<Id, Indexed>
    var episodesCurrent: map<Id, Episode>
    var ledgerIdentities: map<DayKey, Id>
    var dayCoverage: map<DayKey, Coverage>
    var dayLedgers: map<DayKey, Ledger>
    var nextValue: Id

    function Contents(): Core
      reads this
    {
      Core(Facts(sources, observations), Log(eventRevisions, episodeRevisions, tombstones),
           Heads(eventsCurrent, recallFts, episodesCurrent), Days(ledgerIdentities, dayCoverage, dayLedgers), nextValue)
    }

    constructor ()
      ensures Contents() == Fresh
    {
      sources, observations, eventRevisions, episodeRevisions, tombstones := map[], map[], map[], map[], {};
      eventsCurrent, recallFts, episodesCurrent := map[], map[], map[];
      ledgerIdentities, dayCoverage, dayLedgers, nextValue := map[], map[], map[], 1;
    }

    method NextId() returns (id: Id)
      modifies `nextValue
      ensures id == old(nextValue) && nextValue == id + 1
    {
      id := nextValue;
      nextValue := nextValue + 1;
    }

    /** A transaction that raises: every table is as it was. */
    method Rollback(saved: Core)
      modifies this
      ensures Contents() == saved
    {
      RestoreFacts(saved.facts, saved.log);
      RestoreRest(saved.heads, saved.days, saved.nextId);
      assert Contents() == Core(saved.facts, saved.log, saved.heads, saved.days, saved.nextId);
    }

    method RestoreFacts(f: Facts, l: Log)
      modifies `sources, `observations, `eventRevisions, `episodeRevisions, `tombstones
      ensures Contents().facts == f && Contents().log == l
    {
      sources, observations := f.sources, f.observations;
      eventRevisions, episodeRevisions, tombstones := l.events, l.episodes, l.tombstones;
    }

    method RestoreRest(h: Heads, d: Days, next: Id)
      modifies `eventsCurrent, `recallFts, `episodesCurrent, `ledgerIdentities, `dayCoverage, `dayLedgers, `nextValue
      ensures Contents().heads == h && Contents().days == d && Contents().nextId == next
    {
      eventsCurrent, recallFts, episodesCurrent := h.events, h.index, h.episodes;
      ledgerIdentities, dayCoverage, dayLedgers := d.identities, d.coverage, d.ledgers;
      nextValue := next;
    }

    method LedgerIdentity(key: DayKey)
      modifies `ledgerIdentities, `nextValue
      ensures Contents() == Identify(old(Contents()), key)
    {
      if key !in ledgerIdentities {
        var id := NextId();
        ledgerIdentities := ledgerIdentities[key := id];
      }
    }

    /** The live episodes of a day as entries, and the events they contain. */
    method EpisodeEntries(day: Day) returns (entries: set<Entry>, inside: set<Id>)
      ensures entries == set id | id in EpisodesOn(Contents().heads, day) ::
                Entry(EpisodeEntry, id, episodesCurrent[id].revision, episodesCurrent[id].range.start)
      ensures forall event :: event in inside <==> InEpisodeOn(Contents().heads, day, event)
    {
      entries, inside := {}, {};
      var rows := EpisodesOn(Contents().heads, day);
      var todo := rows;
      ghost var done: set<Id> := {};
      while todo != {}
        invariant done + todo == rows && done !! todo
        invariant entries == set id | id in done :: Entry(EpisodeEntry, id, episodesCurrent[id].revision, episodesCurrent[id].range.start)
        invariant forall event :: event in inside <==>
          exists id :: id in done && exists ref :: ref in episodesCurrent[id].refs && ref.event == event
        decreases todo
      {
        var id :| id in todo;
        var row := episodesCurrent[id];
        entries := entries + {Entry(EpisodeEntry, id, row.revision, row.range.start)};
        inside := inside + set ref | ref in row.refs :: ref.event;
        todo, done := todo - {id}, done + {id};
      }
      assert done == rows;
    }

    /** The live events of a day that no episode of the day contains. */
    method EventEntries(day: Day, inside: set<Id>) returns (entries: set<Entry>)
      requires forall event :: event in inside <==> InEpisodeOn(Contents().heads, day, event)
      ensures entries == set id | id in EventsOn(Contents().heads, day) && !InEpisodeOn(Contents().heads, day, id) ::
                Entry(EventEntry, id, eventsCurrent[id].revision, eventsCurrent[id].range.start)
    {
      entries := {};
      var rows := EventsOn(Contents().heads, day);
      var todo := rows;
      ghost var done: set<Id> := {};
      while todo != {}
        invariant done + todo == rows && done !! todo
        invariant entries == set id | id in done && id !in inside ::
          Entry(EventEntry, id, eventsCurrent[id].revision, eventsCurrent[id].range.start)
        decreases todo
      {
        var id :| id in todo;
        if id !in inside {
          entries := entries + {Entry(EventEntry, id, eventsCurrent[id].revision, eventsCurrent[id].range.start)};
        }
        todo, done := todo - {id}, done + {id};
      }
      assert done == rows;
    }

    /** How many revisions of events and episodes fall on a day, whatever their zone. */
    method CountRevisions(day: Day) returns (count: nat)
      ensures count == RevisionsOn(Contents().log, day)
    {
      count := 0;
      var todo := eventRevisions.Keys;
      ghost var counted: set<Version> := {};
      while todo != {}
        invariant todo <= eventRevisions.Keys
        invariant counted == set v | v in eventRevisions && v !in todo && eventRevisions[v].On() == day
        invariant count == |counted|
        decreases todo
      {
        var v :| v in todo;
        if eventRevisions[v].On() == day {
          counted := counted + {v};
          count := count + 1;
        }
        todo := todo - {v};
      }
      assert counted == set v | v in eventRevisions && eventRevisions[v].On() == day;
      var first := count;
      var rest := episodeRevisions.Keys;
      ghost var more: set<Version> := {};
      while rest != {}
        invariant rest <= episodeRevisions.Keys
        invariant more == set v | v in episodeRevisions && v !in rest && episodeRevisions[v].On() == day
        invariant count == first + |more|
        decreases rest
      {
        var v :| v in rest;
        if episodeRevisions[v].On() == day {
          more := more + {v};
          count := count + 1;
        }
        rest := rest - {v};
      }
      assert more == set v | v in episodeRevisions && episodeRevisions[v].On() == day;
    }

    /** _refresh_ledger. */
    method RefreshLedger(key: DayKey)
      modifies `ledgerIdentities, `nextValue, `dayLedgers
      ensures Contents() == Refresh(old(Contents()), key)
    {
      LedgerIdentity(key);
      var entries, inside := EpisodeEntries(key.day);
      var events := EventEntries(key.day, inside);
      entries := entries + events;
      var state, reasons, version := if entries != {} then "sparse" else "empty", {}, 0;
      if key in dayCoverage {
        state, reasons, version := dayCoverage[key].state, dayCoverage[key].reasons, dayCoverage[key].version;
      }
      var count := CountRevisions(key.day);
      var ledger := Ledger(1 + count + version, state, reasons, if entries == {} then "insufficient" else "absent", entries);
      assert ledger == LedgerOf(Contents(), key);
      dayLedgers := dayLedgers[key := ledger];
    }

    method UpsertEventCurrent(e: Event)
      modifies `eventsCurrent, `recallFts
      ensures Contents().heads == UpsertEvent(old(Contents().heads), e)
    {
      eventsCurrent := eventsCurrent[e.id := e];
      recallFts := recallFts - {e.id};
      if e.Live() {
        recallFts := recallFts[e.id := Indexed(e.title, e.description)];
      }
      assert recallFts == UpsertEvent(old(Contents().heads), e).index;
    }

    method InsertEventRevision(e: Event)
      modifies `eventRevisions, `eventsCurrent, `recallFts
      ensures Contents() == PutEvent(old(Contents()), e)
    {
      eventRevisions := eventRevisions[Version(e.id, e.revision) := e];
      UpsertEventCurrent(e);
    }

    /** _validate_evidence with the key of field_evidence: the source ids, or nothing where it raises. */
    method ValidateEvidence(space: string, evidence: seq<Evidence>) returns (accepted: bool, from: set<Id>)
      ensures accepted <==> EvidenceAccepted(Contents().facts, space, evidence)
      ensures accepted ==> from == SourcesOf(observations, evidence)
    {
      hide EvidenceUsable;
      accepted, from := true, {};
      for i := 0 to |evidence|
        invariant accepted
        invariant forall j :: 0 <= j < i ==> EvidenceUsable(Contents().facts, space, evidence[j])
        invariant forall j, k :: 0 <= j < k < i && evidence[j].field == evidence[k].field ==> evidence[j].observations !! evidence[k].observations
        invariant from == SourcesOf(observations, evidence[..i])
      {
        var ev := evidence[i];
        if !EvidenceUsable(Contents().facts, space, ev) {
          assert ev in evidence;
          accepted := false;
          return;
        }
        if exists j :: 0 <= j < i && evidence[j].field == ev.field && !(evidence[j].observations !! ev.observations) {
          accepted := false;
          return;
        }
        from := from + set o | o in ev.observations && o in observations :: observations[o].source;
        SourcesGrow(observations, evidence[..i], ev);
        assert evidence[..i + 1] == evidence[..i] + [ev];
      }
      assert evidence[..|evidence|] == evidence;
    }

    /** _append_event_revision_tx. */
    method AppendEventRevisionTx(id: Id, base: nat, changes: Changes, evidence: Option<seq<Evidence>>, now: int, refresh: bool)
      returns (ok: bool)
      requires id in eventsCurrent ==> eventsCurrent[id].id == id
      modifies this
      ensures ok <==> !AppendRefused(old(Contents()), id, base, changes, evidence)
      ensures !ok ==> Contents() == old(Contents())
      ensures ok && refresh ==> AppendRevision(old(Contents()), id, base, changes, evidence, now) == Done(Contents())
      ensures ok && !refresh ==> Contents() == PutEvent(old(Contents()), AppendedEvent(old(Contents()), id, changes, evidence, now))
    {
      hide Refresh, EvidenceAccepted, SourcesOf;
      if id !in eventsCurrent || eventsCurrent[id].revision != base {
        return false;
      }
      var current := eventsCurrent[id];
      var list, from := current.evidence, current.sources;
      var fact := changes.fact.GetOr(current.fact);
      if fact.OtherFact? || (changes.range.Some? && LocalDate(changes.range.value).None?) {
        return false;
      }
      if evidence.Some? {
        var accepted;
        accepted, from := ValidateEvidence(current.space, evidence.value);
        if !accepted {
          return false;
        }
        list := evidence.value;
      }
      var snapshot := Revised(current, changes, list, from, now);
      assert snapshot == AppendedEvent(old(Contents()), id, changes, evidence, now);
      InsertEventRevision(snapshot);
      if refresh {
        RefreshLedger(snapshot.Key());
        if current.date != snapshot.date {
          RefreshLedger(DayKey(current.On(), snapshot.Key().zone));
        }
      }
      ok := true;
    }

    /** accept_event. */
    method Accept(n: NewEvent, now: int) returns (event: Option<Id>)
      modifies this
      ensures AcceptEvent(old(Contents()), n, now) == if event.Some? then Done(Contents()) else Refused
      ensures event == None ==> Contents() == old(Contents())
      ensures event.Some? ==> event.value == old(nextValue)
    {
      hide Refresh, EvidenceAccepted, SourcesOf, PutEvent;
      if n.fact.OtherFact? {
        return None;
      }
      var accepted, from := ValidateEvidence(n.space, n.evidence);
      if !accepted || n.evidence == [] || LocalDate(n.range).None? {
        return None;
      }
      var id := NextId();
      var state := if n.fact == ConflictFact then InConflict else Active;
      var snapshot := Event(id, n.owner, n.space, n.eventType, n.range, LocalDate(n.range).value, n.title, n.description,
                            n.fact, n.evidence, from, 1, n.sensitivity, state, now);
      InsertEventRevision(snapshot);
      RefreshLedger(snapshot.Key());
      event := Some(id);
    }

    /** undo_event: the restored revision must still pass validation. */
    method Undo(id: Id, base: nat, restore: nat, now: int) returns (ok: bool)
      requires id in eventsCurrent ==> eventsCurrent[id].id == id
      modifies this
      ensures UndoEvent(old(Contents()), id, base, restore, now) == if ok then Done(Contents()) else Refused
      ensures !ok ==> Contents() == old(Contents())
    {
      hide EvidenceAccepted, SourcesOf, ReplaceEvent, AppendedEvent;
      if id !in eventsCurrent || eventsCurrent[id].revision != base || Version(id, restore) !in eventRevisions {
        return false;
      }
      var target := eventRevisions[Version(id, restore)];
      var accepted, from := ValidateEvidence(target.space, target.evidence);
      if !accepted || from != target.sources {
        return false;
      }
      var changes := Changes(Some(target.title), Some(target.description), Some(target.fact), Some(target.state), Some(target.range), None);
      ok := AppendEventRevisionTx(id, base, changes, Some(target.evidence), now, true);
    }

    /** record_conflict. */
    method RecordCompetingRevision(id: Id, competing: nat, now: int) returns (ok: bool)
      requires id in eventsCurrent ==> eventsCurrent[id].id == id
      modifies this
      ensures RecordConflict(old(Contents()), id, competing, now) == if ok then Done(Contents()) else Refused
      ensures !ok ==> Contents() == old(Contents())
    {
      hide ReplaceEvent, AppendedEvent;
      if id !in eventsCurrent || competing >= eventsCurrent[id].revision {
        return false;
      }
      var changes := NoChanges.(fact := Some(ConflictFact), state := Some(InConflict));
      ok := AppendEventRevisionTx(id, eventsCurrent[id].revision, changes, None, now, true);
    }

    /** set_day_coverage. */
    method SetDayCoverage(key: DayKey, state: string, reasons: set<string>) returns (ok: bool)
      modifies this
      ensures SetCoverage(old(Contents()), key, state, reasons) == if ok then Done(Contents()) else Refused
      ensures !ok ==> Contents() == old(Contents())
    {
      hide Refresh;
      if state !in COVERAGE_STATES {
        return false;
      }
      LedgerIdentity(key);
      var version := if key in dayCoverage then dayCoverage[key].version + 1 else 1;
      dayCoverage := dayCoverage[key := Coverage(state, reasons, version)];
      RefreshLedger(key);
      ok := true;
    }

    /** One event of a source deletion: recomputed from what remains, or deleted. */
    method DeleteFromEvent(id: Id, source: Id, now: int) returns (ok: bool, wiped: bool)
      requires id in eventsCurrent && eventsCurrent[id].id == id
      modifies this
      ensures ok <==> !DeletionBlocked(old(Contents()).facts, source, old(eventsCurrent)[id])
      ensures !ok ==> Contents() == old(Contents())
      ensures ok ==> wiped == Wiped(old(observations), source, old(eventsCurrent)[id])
      ensures ok ==> Contents() == PutEvent(old(Contents()), Recomputed(old(observations), source, old(eventsCurrent)[id], now))
    {
      hide EvidenceAccepted, SourcesOf, PutEvent, FactFromEvidence, EvidenceAfter;
      wiped := false;
      var current := eventsCurrent[id];
      var remaining, known := EvidenceAfterSourceDeletion(observations, current.evidence, source);
      if !known {
        return false, false;
      }
      if remaining == [] {
        wiped := true;
        ok := AppendEventRevisionTx(id, current.revision, NoChanges.(state := Some(Deleted)), None, now, false);
      } else {
        var fact := FactFromEvidence(remaining);
        assert !fact.OtherFact? by { FactIsKnown(remaining); }
        var changes := Changes(Some(LabelOf(current.eventType)), Some(RecomputedFrom(set ev | ev in remaining :: ev.field)), Some(fact),
                               Some(if fact == ConflictFact then InConflict else Active), None, None);
        ok := AppendEventRevisionTx(id, current.revision, changes, Some(remaining), now, false);
      }
    }

    /** One episode revision, with its tombstone when the episode is deleted. */
    method ReplaceEpisode(snapshot: Episode)
      modifies `episodeRevisions, `episodesCurrent, `tombstones
      ensures Contents() == Bury(PutEpisode(old(Contents()), snapshot), if snapshot.Live() then {} else {EpisodeTarget(snapshot.id)})
    {
      episodeRevisions := episodeRevisions[Version(snapshot.id, snapshot.revision) := snapshot];
      if !snapshot.Live() {
        tombstones := tombstones + {EpisodeTarget(snapshot.id)};
      }
      episodesCurrent := episodesCurrent[snapshot.id := snapshot];
    }

    /** _recompute_episodes_after_deletion: episodes lose the deleted events, and are deleted when they lose them all. */
    method RecomputeEpisodes(gone: set<Id>, now: int) returns (touched: set<DayKey>)
      requires forall id :: id in episodesCurrent ==> episodesCurrent[id].id == id
      modifies this
      ensures Contents() == ThinnedSoFar(old(Contents()), gone, Thinning(old(Contents()).heads, gone), now)
      ensures touched == KeysOf(map[], ThinnedEpisodes(old(Contents()), gone, now))
    {
      ghost var start := Contents();
      touched := {};
      var rows := Thinning(Contents().heads, gone);
      var todo := rows;
      ghost var done: set<Id> := {};
      hide Thinned, PutEpisode, ThinnedSoFar, Thinning, ThinnedEpisodes, KeysOf, ThinnedMap, Bury;
      NothingThinned(start, gone, now);
      ThinningRows(start, gone, now);
      while todo != {}
        invariant done + todo == rows && done !! todo && done <= start.heads.episodes.Keys
        invariant Contents() == ThinnedSoFar(start, gone, done, now)
        invariant touched == KeysOf(map[], ThinnedMap(start, gone, done, now))
        decreases todo
      {
        var id :| id in todo;
        ThinOneMore(start, gone, done, id, now);
        var snapshot := Thinned(episodesCurrent[id], gone, now);
        ReplaceEpisode(snapshot);
        touched := touched + {snapshot.Key()};
        todo, done := todo - {id}, done + {id};
      }
      assert done == rows;
    }

    /** Refresh the ledgers of some days, in any order. */
    method RefreshLedgers(keys: set<DayKey>)
      requires keys <= ledgerIdentities.Keys
      modifies this
      ensures Contents() == RefreshAll(old(Contents()), keys)
    {
      hide LedgerOf;
      ghost var start := Contents();
      var todo := keys;
      ghost var done: set<DayKey> := {};
      assert Contents() == RefreshAll(start, {});
      while todo != {}
        invariant done + todo == keys && done !! todo
        invariant Contents() == RefreshAll(start, done)
        decreases todo
      {
        var key :| key in todo;
        RefreshOneMore(start, done, key);
        RefreshLedger(key);
        todo, done := todo - {key}, done + {key};
      }
      assert done == keys;
    }

    /** The loop of delete_source over the affected events. */
    method DeleteFromEvents(source: Id, affected: set<Id>, now: int) returns (ok: bool, gone: set<Id>, touched: set<DayKey>)
      requires forall id :: id in affected ==> id in eventsCurrent && eventsCurrent[id].id == id
      modifies this
      ensures ok <==> forall id :: id in affected ==> !DeletionBlocked(old(Contents()).facts, source, old(eventsCurrent)[id])
      ensures ok ==> gone == set id | id in affected && Wiped(old(observations), source, old(eventsCurrent)[id])
      ensures ok ==> Contents() == Bury(PutEvents(old(Contents()), RecomputedMap(old(Contents()), source, affected, now)), Graved(gone))
      ensures ok ==> touched == KeysOf(RecomputedMap(old(Contents()), source, affected, now), map[])
    {
      ghost var start := Contents();
      ok, gone, touched := true, {}, {};
      var todo := affected;
      ghost var done: set<Id> := {};
      hide IndexOf, Recomputed, Wiped, DeletionBlocked, PutEvent, PutEvents, KeysOf, RecomputedMap, Bury, Graved;
      NothingPut(start, RecomputedMap(start, source, {}, now));
      while todo != {}
        invariant done + todo == affected && done !! todo && done <= start.heads.events.Keys
        invariant ok && forall id :: id in done ==> !DeletionBlocked(start.facts, source, start.heads.events[id])
        invariant gone == set id | id in done && Wiped(start.facts.observations, source, start.heads.events[id])
        invariant Contents() == Bury(PutEvents(start, RecomputedMap(start, source, done, now)), Graved(gone))
        invariant touched == KeysOf(RecomputedMap(start, source, done, now), map[])
        decreases todo
      {
        var id :| id in todo;
        RecomputeOneMore(start, source, done, gone, id, now);
        var wiped;
        ok, wiped := DeleteFromEvent(id, source, now);
        if !ok {
          return;
        }
        touched := touched + {eventsCurrent[id].Key()};
        if wiped {
          GraveOneMore(Contents(), PutEvents(start, RecomputedMap(start, source, done + {id}, now)), gone, id);
          BuryEvent(id);
          gone := gone + {id};
        }
        todo, done := todo - {id}, done + {id};
      }
      assert done == affected;
    }

    method BuryEvent(id: Id)
      modifies `tombstones
      ensures Contents() == Bury(old(Contents()), {EventTarget(id)})
    {
      tombstones := tombstones + {EventTarget(id)};
    }

    /** delete_source: one transaction over events, episodes, tombstones and ledgers. */
    method DeleteSourceObject(source: Id, now: int) returns (ok: bool)
      requires Grounded(Contents())
      modifies this
      ensures DeleteSource(old(Contents()), source, now) == if ok then Done(Contents()) else Refused
      ensures !ok ==> Contents() == old(Contents())
    {
      hide Recomputed, DeletionBlocked, PutEvents, PutEpisodes, RefreshAll, Bury, RecomputedMap, ThinnedSoFar, KeysOf,
        LogOk, DaysOk, Wiped, ThinnedEpisodes, RecomputedEvents, Graves, Graved, Gone, Thinning, Deletion;
      if source !in sources || sources[source].deleted {
        return false;
      }
      ghost var start := Contents();
      var saved := Contents();
      var affected := Affected(Contents(), source);
      HeadIdsAreKeys(start);
      tombstones := tombstones + {SourceTarget(source)};
      sources := sources[source := sources[source].(deleted := true)];
      ghost var marked := Contents();
      assert marked == Bury(start.(facts := MarkDeleted(start.facts, source)), {SourceTarget(source)}) by { MarkAndBury(start, source); }
      var gone, touched;
      ok, gone, touched := DeleteFromEvents(source, affected, now);
      if !ok {
        Rollback(saved);
        return;
      }
      ghost var emptied := Contents();
      EventsDeleted(start, marked, source, affected, gone, now);
      var more := RecomputeEpisodes(gone, now);
      DeletionAssembled(start, marked, emptied, source, affected, gone, now);
      RefreshLedgers(touched + more);
    }

    /** The event rows and the search rows of the ids done so far. */
    ghost predicate EventsDone(heads: map<Id, Version>, done: set<Id>)
      reads this
    {
      && done <= heads.Keys && (forall id :: id in heads ==> heads[id] in eventRevisions)
      && eventsCurrent == EventsReplayed(Contents().log, heads, done) && recallFts == IndexOf(eventsCurrent)
    }

    method ReplayEvent(heads: map<Id, Version>, ghost done: set<Id>, id: Id)
      requires EventsDone(heads, done) && id in heads && heads[id] in eventRevisions && eventRevisions[heads[id]].id == id
      modifies `eventsCurrent, `recallFts
      ensures EventsDone(heads, done + {id})
    {
      ReplayOneEvent(Contents().heads, Contents().log, heads, done, id);
      hide EventsReplayed, IndexOf, UpsertEvent;
      var snapshot := eventRevisions[heads[id]];
      if EventTarget(id) in tombstones {
        snapshot := snapshot.(state := Deleted);
      }
      UpsertEventCurrent(snapshot);
    }

    lemma NoEventsDone(heads: map<Id, Version>)
      requires HeadsFound(eventRevisions, heads) && eventsCurrent == map[] && recallFts == map[]
      ensures EventsDone(heads, {})
    {
      hide EventsReplayed, IndexOf;
      assert EventsReplayed(Contents().log, heads, {}) == eventsCurrent;
      NothingIndexed();
    }

    lemma AllEventsDone(heads: map<Id, Version>)
      requires HeadsFound(eventRevisions, heads) && EventsDone(heads, heads.Keys)
      ensures eventsCurrent == EventHeads(Contents().log) && recallFts == IndexOf(eventsCurrent)
    {
      hide EventsReplayed, IndexOf, EventHeads, HeadsFound;
      AllEventsReplayed(Contents().log, heads);
    }

    /** The current rows of events rebuilt one by one from their newest revisions; buried events are deleted. */
    method ReplayEvents(heads: map<Id, Version>)
      requires HeadsFound(eventRevisions, heads) && forall id :: id in heads ==> eventRevisions[heads[id]].id == id
      requires eventsCurrent == map[] && recallFts == map[]
      modifies `eventsCurrent, `recallFts
      ensures eventsCurrent == EventHeads(Contents().log) && recallFts == IndexOf(eventsCurrent)
    {
      hide EventHeads, IndexOf, EventsDone, IsHead;
      var todo := heads.Keys;
      ghost var done: set<Id> := {};
      NoEventsDone(heads);
      while todo != {}
        invariant done + todo == heads.Keys && done !! todo && EventsDone(heads, done)
        decreases todo
      {
        var id :| id in todo;
        ReplayEvent(heads, done, id);
        todo, done := todo - {id}, done + {id};
      }
      assert done == heads.Keys;
      AllEventsDone(heads);
    }

    method ReplayEpisodes(heads: map<Id, Version>)
      requires HeadsFound(episodeRevisions, heads) && forall id :: id in heads ==> episodeRevisions[heads[id]].id == id
      requires episodesCurrent == map[]
      modifies `episodesCurrent
      ensures episodesCurrent == EpisodeHeads(Contents().log)
    {
      hide EpisodeHeads, EpisodesReplayed, IsHead;
      ghost var log := Contents().log;
      var todo := heads.Keys;
      ghost var done: set<Id> := {};
      assert episodesCurrent == EpisodesReplayed(log, heads, done);
      while todo != {}
        invariant done + todo == heads.Keys && done !! todo
        invariant episodesCurrent == EpisodesReplayed(log, heads, done)
        decreases todo
      {
        var id :| id in todo;
        var snapshot := episodeRevisions[heads[id]];
        if EpisodeTarget(id) in tombstones {
          snapshot := snapshot.(state := Deleted);
        }
        ReplayOneMoreEpisode(log, heads, done, id);
        episodesCurrent := episodesCurrent[id := snapshot];
        todo, done := todo - {id}, done + {id};
      }
      assert done == heads.Keys;
      AllEpisodesReplayed(log, heads);
    }

    /** rebuild(). */
    method RebuildProjections()
      requires Grounded(Contents())
      modifies this
      ensures Contents() == Rebuild(old(Contents()))
    {
      hide EventHeads, EpisodeHeads, IndexOf, RefreshAll, KeysOf, LogOk, DaysOk, IsHead;
      ghost var start := Contents();
      RowIdsAreKeys(start);
      RebuiltKeys(start);
      recallFts, dayLedgers, eventsCurrent, episodesCurrent := map[], map[], map[], map[];
      var eventHeads := NewestVersions(eventRevisions);
      ReplayEvents(eventHeads);
      var episodeHeads := NewestVersions(episodeRevisions);
      ReplayEpisodes(episodeHeads);
      var dates := KeysOf(eventsCurrent, episodesCurrent) + ledgerIdentities.Keys;
      assert Contents() == start.(heads := HeadsOf(start.log), days := start.days.(ledgers := map[]));
      RefreshLedgers(dates);
    }

    /** today(): the ledger is created when it is read for the first time. */
    method ReadToday(key: DayKey)
      modifies this
      ensures Contents() == Today(old(Contents()), key)
    {
      hide Refresh;
      if key !in dayLedgers {
        RefreshLedger(key);
      }
    }
  }

  lemma SourcesGrow(seen: Observations, evidence: seq<Evidence>, ev: Evidence)
    ensures SourcesOf(seen, evidence + [ev]) ==
            SourcesOf(seen, evidence) + set o | o in ev.observations && o in seen :: seen[o].source
  {
    assert ObservationsIn(evidence + [ev]) == ObservationsIn(evidence) + ev.observations by {
      assert ev in evidence + [ev];
    }
  }

  lemma FactIsKnown(evidence: seq<Evidence>)
    ensures !FactFromEvidence(evidence).OtherFact?
  {
  }

  // ---- the loops, one row at a time ----

  function ThinnedMap(c: Core, gone: set<Id>, ids: set<Id>, now: int): (thinned: map<Id, Episode>)
    requires ids <= c.heads.episodes.Keys
    ensures thinned.Keys == ids && forall id :: id in ids ==> thinned[id] == Thinned(c.heads.episodes[id], gone, now)
  {
    map id | id in ids :: Thinned(c.heads.episodes[id], gone, now)
  }

  function ThinnedSoFar(c: Core, gone: set<Id>, done: set<Id>, now: int): Core
    requires done <= c.heads.episodes.Keys
  {
    Bury(PutEpisodes(c, ThinnedMap(c, gone, done, now)), Emptied(ThinnedMap(c, gone, done, now)))
  }

  lemma NothingThinned(c: Core, gone: set<Id>, now: int)
    ensures ThinnedSoFar(c, gone, {}, now) == c
    ensures KeysOf(map[], ThinnedMap(c, gone, {}, now)) == {}
  {
    hide ThinnedMap, Thinned, EpisodeRows;
  }

  lemma ThinningRows(c: Core, gone: set<Id>, now: int)
    ensures Thinning(c.heads, gone) <= c.heads.episodes.Keys
    ensures ThinnedMap(c, gone, Thinning(c.heads, gone), now) == ThinnedEpisodes(c, gone, now)
  {
    hide ThinnedMap, Thinned;
  }

  lemma PutEpisodesOneMore(c: Core, changed: map<Id, Episode>, e: Episode)
    requires e.id !in changed
    ensures PutEpisode(PutEpisodes(c, changed), e) == PutEpisodes(c, changed[e.id := e])
  {
    hide EpisodeRows;
    assert (c.log.episodes + EpisodeRows(changed))[Version(e.id, e.revision) := e] == c.log.episodes + EpisodeRows(changed[e.id := e]);
    assert (c.heads.episodes + changed)[e.id := e] == c.heads.episodes + changed[e.id := e];
  }

  lemma EmptiedOneMore(changed: map<Id, Episode>, e: Episode)
    requires e.id !in changed
    ensures Emptied(changed[e.id := e]) == Emptied(changed) + (if e.Live() then {} else {EpisodeTarget(e.id)})
  {
    var more := changed[e.id := e];
    forall id | id in changed && !changed[id].Live() ensures EpisodeTarget(id) in Emptied(more) {
      assert id in more && !more[id].Live();
    }
    assert !e.Live() ==> e.id in more && !more[e.id].Live();
  }

  lemma ThinOneMore(c: Core, gone: set<Id>, done: set<Id>, id: Id, now: int)
    requires done <= c.heads.episodes.Keys && id in c.heads.episodes && id !in done && c.heads.episodes[id].id == id
    ensures var d, e := ThinnedSoFar(c, gone, done, now), Thinned(c.heads.episodes[id], gone, now);
      && id in d.heads.episodes && d.heads.episodes[id] == c.heads.episodes[id]
      && e.id == id
      && ThinnedSoFar(c, gone, done + {id}, now) == Bury(PutEpisode(d, e), if e.Live() then {} else {EpisodeTarget(id)})
      && KeysOf(map[], ThinnedMap(c, gone, done + {id}, now)) == KeysOf(map[], ThinnedMap(c, gone, done, now)) + {e.Key()}
  {
    var m, e := ThinnedMap(c, gone, done, now), Thinned(c.heads.episodes[id], gone, now);
    var d := ThinnedSoFar(c, gone, done, now);
    assert e.id == id && id !in m;
    hide Thinned, Emptied, EpisodeRows, ThinnedMap;
    assert ThinnedMap(c, gone, done + {id}, now) == m[id := e];
    assert d.heads.episodes[id] == c.heads.episodes[id];
    PutEpisodesOneMore(c, m, e);
    EmptiedOneMore(m, e);
    var rest := if e.Live() then {} else {EpisodeTarget(id)};
    assert PutEpisode(d, e) == Bury(PutEpisodes(c, m[id := e]), Emptied(m));
    BuryMore(PutEpisodes(c, m[id := e]), Emptied(m), rest);
    EpisodeKeysOneMore(m, e);
  }

  lemma EpisodeKeysOneMore(m: map<Id, Episode>, e: Episode)
    requires e.id !in m
    ensures KeysOf(map[], m[e.id := e]) == KeysOf(map[], m) + {e.Key()}
  {
    var more := m[e.id := e];
    forall id | id in m ensures m[id].Key() in KeysOf(map[], more) {
      assert id in more;
    }
    assert e.id in more;
  }

  lemma BuryMore(c: Core, a: set<Target>, b: set<Target>)
    ensures Bury(Bury(c, a), b) == Bury(c, a + b)
  {
    assert c.log.tombstones + a + b == c.log.tombstones + (a + b);
  }

  lemma RefreshOneMore(c: Core, done: set<DayKey>, key: DayKey)
    requires key in c.days.identities
    ensures Refresh(RefreshAll(c, done), key) == RefreshAll(c, done + {key})
  {
    hide LedgersOf, LedgerOf;
    var d := RefreshAll(c, done);
    LedgersApart(c, c.days.ledgers + LedgersOf(c, done), key);
    assert LedgersOf(c, done + {key}) == LedgersOf(c, done)[key := LedgerOf(c, key)];
    assert (c.days.ledgers + LedgersOf(c, done))[key := LedgerOf(c, key)] == c.days.ledgers + LedgersOf(c, done + {key});
  }

  lemma LedgersApart(c: Core, ledgers: map<DayKey, Ledger>, key: DayKey)
    ensures LedgerOf(c.(days := c.days.(ledgers := ledgers)), key) == LedgerOf(c, key)
  {
  }

  function RecomputedMap(c: Core, source: Id, ids: set<Id>, now: int): (events: map<Id, Event>)
    requires ids <= c.heads.events.Keys
    ensures events.Keys == ids
    ensures forall id :: id in ids ==> events[id] == Recomputed(c.facts.observations, source, c.heads.events[id], now)
  {
    map id | id in ids :: Recomputed(c.facts.observations, source, c.heads.events[id], now)
  }

  lemma NothingPut(c: Core, none: map<Id, Event>)
    requires none.Keys == {}
    ensures Bury(PutEvents(c, none), Graved({})) == c && KeysOf(none, map[]) == {}
  {
    hide EventRows, IndexOf;
    assert Reindexed(c.heads.index, none) == c.heads.index;
  }

  lemma PutEventsOneMore(c: Core, changed: map<Id, Event>, e: Event)
    requires e.id !in changed
    ensures PutEvent(PutEvents(c, changed), e) == PutEvents(c, changed[e.id := e])
  {
    hide EventRows, Reindexed, IndexOf;
    assert (c.log.events + EventRows(changed))[Version(e.id, e.revision) := e] == c.log.events + EventRows(changed[e.id := e]);
    assert (c.heads.events + changed)[e.id := e] == c.heads.events + changed[e.id := e];
    ReindexOneMore(c.heads, changed, e);
  }

  lemma ReindexOneMore(h: Heads, changed: map<Id, Event>, e: Event)
    requires e.id !in changed
    ensures UpsertEvent(h.(index := Reindexed(h.index, changed)), e).index == Reindexed(h.index, changed[e.id := e])
  {
    IndexOneMore(changed, e);
    assert changed[e.id := e].Keys == changed.Keys + {e.id};
    MoreAfter(h.index, changed.Keys, IndexOf(changed), e.id, Indexed(e.title, e.description));
    hide IndexOf;
  }

  /** Replacing some rows, and then one more. */
  lemma MoreAfter(index: map<Id, Indexed>, keys: set<Id>, rows: map<Id, Indexed>, id: Id, row: Indexed)
    requires rows.Keys <= keys && id !in keys
    ensures ((index - keys) + rows)[id := row] == (index - (keys + {id})) + rows[id := row]
    ensures (index - keys) + rows - {id} == (index - (keys + {id})) + rows
  {
  }

  lemma IndexOneMore(changed: map<Id, Event>, e: Event)
    requires e.id !in changed
    ensures IndexOf(changed[e.id := e]) ==
      if e.Live() then IndexOf(changed)[e.id := Indexed(e.title, e.description)] else IndexOf(changed)
  {
    hide IndexOf;
  }

  lemma RecomputeOneMore(c: Core, source: Id, done: set<Id>, gone: set<Id>, id: Id, now: int)
    requires done <= c.heads.events.Keys && id in c.heads.events && id !in done && c.heads.events[id].id == id
    ensures var graves := Graved(gone);
      var d, e := Bury(PutEvents(c, RecomputedMap(c, source, done, now)), graves), Recomputed(c.facts.observations, source, c.heads.events[id], now);
      && id in d.heads.events && d.heads.events[id] == c.heads.events[id] && d.facts == c.facts && e.id == id
      && PutEvent(d, e) == Bury(PutEvents(c, RecomputedMap(c, source, done + {id}, now)), graves)
      && PutEvent(d, e).heads.events == d.heads.events[id := e]
      && KeysOf(RecomputedMap(c, source, done + {id}, now), map[]) == KeysOf(RecomputedMap(c, source, done, now), map[]) + {e.Key()}
  {
    var graves := Graved(gone);
    assert Recomputed(c.facts.observations, source, c.heads.events[id], now).id == id;
    hide Recomputed, EventRows, Reindexed, IndexOf, RecomputedMap;
    var m, e := RecomputedMap(c, source, done, now), Recomputed(c.facts.observations, source, c.heads.events[id], now);
    var d := Bury(PutEvents(c, m), graves);
    assert RecomputedMap(c, source, done + {id}, now) == m[id := e];
    assert d.heads.events[id] == c.heads.events[id];
    PutEventsOneMore(c, m, e);
    assert PutEvent(d, e) == Bury(PutEvent(PutEvents(c, m), e), graves);
    KeysOneMore(m, e);
  }

  function Graved(gone: set<Id>): set<Target> {
    set id | id in gone :: EventTarget(id)
  }

  lemma GraveOneMore(c: Core, d: Core, gone: set<Id>, id: Id)
    requires c == Bury(d, Graved(gone))
    ensures Bury(c, {EventTarget(id)}) == Bury(d, Graved(gone + {id}))
  {
    BuryMore(d, Graved(gone), {EventTarget(id)});
    assert Graved(gone + {id}) == Graved(gone) + {EventTarget(id)};
  }

  lemma KeysOneMore(m: map<Id, Event>, e: Event)
    requires e.id !in m
    ensures KeysOf(m[e.id := e], map[]) == KeysOf(m, map[]) + {e.Key()}
  {
    var more := m[e.id := e];
    forall id | id in m ensures m[id].Key() in KeysOf(more, map[]) {
      assert id in more;
    }
    assert e.id in more;
  }

  lemma HeadIdsAreKeys(c: Core)
    requires LogOk(c)
    ensures forall id :: id in c.heads.events ==> c.heads.events[id].id == id
    ensures forall id :: id in c.heads.episodes ==> c.heads.episodes[id].id == id
  {
    forall id | id in c.heads.events ensures c.heads.events[id].id == id { assert EventHeadOk(c, id); }
    forall id | id in c.heads.episodes ensures c.heads.episodes[id].id == id { assert EpisodeHeadOk(c, id); }
  }

  lemma MarkAndBury(c: Core, source: Id)
    requires source in c.facts.sources
    ensures Bury(c.(facts := MarkDeleted(c.facts, source)), {SourceTarget(source)}) ==
      c.(facts := c.facts.(sources := c.facts.sources[source := c.facts.sources[source].(deleted := true)]),
         log := c.log.(tombstones := c.log.tombstones + {SourceTarget(source)}))
  {
  }

  /** After the loop over events: the same observations and heads as before it decide who is affected and wiped. */
  lemma EventsDeleted(c: Core, marked: Core, source: Id, affected: set<Id>, gone: set<Id>, now: int)
    requires source in c.facts.sources && marked == Bury(c.(facts := MarkDeleted(c.facts, source)), {SourceTarget(source)})
    requires affected == Affected(c, source)
    requires gone == set id | id in affected && Wiped(marked.facts.observations, source, marked.heads.events[id])
    ensures gone == Gone(c, source)
    ensures affected <= marked.heads.events.Keys && RecomputedMap(marked, source, affected, now) == RecomputedEvents(c, source, now)
    ensures Bury(PutEvents(marked, RecomputedMap(marked, source, affected, now)), Graved(gone)).heads.episodes == c.heads.episodes
  {
    hide Recomputed, Wiped, RecomputedMap, EventRows, IndexOf;
  }

  lemma DeletionAssembled(c: Core, marked: Core, emptied: Core, source: Id, affected: set<Id>, gone: set<Id>, now: int)
    requires Grounded(c) && source in c.facts.sources
    requires marked == Bury(c.(facts := MarkDeleted(c.facts, source)), {SourceTarget(source)})
    requires gone == Gone(c, source) && affected <= marked.heads.events.Keys
    requires RecomputedMap(marked, source, affected, now) == RecomputedEvents(c, source, now)
    requires emptied == Bury(PutEvents(marked, RecomputedMap(marked, source, affected, now)), Graved(gone))
    ensures Thinning(emptied.heads, gone) <= emptied.heads.episodes.Keys
    ensures ThinnedEpisodes(emptied, gone, now) == ThinnedEpisodes(c, gone, now)
    ensures var events, episodes := RecomputedEvents(c, source, now), ThinnedEpisodes(c, gone, now);
      var keys := KeysOf(events, map[]) + KeysOf(map[], episodes);
      var thinned := ThinnedSoFar(emptied, gone, Thinning(emptied.heads, gone), now);
      && keys <= thinned.days.identities.Keys
      && RefreshAll(thinned, keys) == Deletion(c, source, now)
  {
    var events, episodes := RecomputedEvents(c, source, now), ThinnedEpisodes(c, gone, now);
    SameThinning(c, marked, emptied, events, gone, now);
    ThinningRows(emptied, gone, now);
    DeletionRevises(c, source, now);
    DeletionThins(c, c, gone, now);
    KeysHeld(c, events, episodes);
    KeysApart(events, episodes);
    GravesTogether(c, source, now);
    hide RecomputedEvents, ThinnedEpisodes, KeysOf, PutEvents, PutEpisodes, Graves, Graved, Gone, Emptied, Grounded, ThinnedMap, RefreshAll;
    BuryCommutes(c.(facts := MarkDeleted(c.facts, source)), events, episodes, {SourceTarget(source)}, Graved(gone), Emptied(episodes));
  }

  lemma SameThinning(c: Core, marked: Core, emptied: Core, events: map<Id, Event>, gone: set<Id>, now: int)
    requires emptied.heads.episodes == PutEvents(marked, events).heads.episodes && marked.heads == c.heads
    ensures emptied.heads.episodes == c.heads.episodes
    ensures ThinnedEpisodes(emptied, gone, now) == ThinnedEpisodes(c, gone, now)
  {
  }

  lemma KeysHeld(c: Core, events: map<Id, Event>, episodes: map<Id, Episode>)
    requires DaysOk(c, {})
    requires forall id :: id in events ==> id in c.heads.events && events[id].Key() == c.heads.events[id].Key()
    requires forall id :: id in episodes ==> id in c.heads.episodes && episodes[id].Key() == c.heads.episodes[id].Key()
    ensures KeysOf(events, episodes) <= c.days.identities.Keys
  {
    forall id | id in events ensures events[id].Key() in c.days.identities.Keys {
      assert c.heads.events[id].Key() in c.days.identities.Keys + {};
    }
    forall id | id in episodes ensures episodes[id].Key() in c.days.identities.Keys {
      assert c.heads.episodes[id].Key() in c.days.identities.Keys + {};
    }
  }

  lemma KeysApart(events: map<Id, Event>, episodes: map<Id, Episode>)
    ensures KeysOf(events, episodes) == KeysOf(events, map[]) + KeysOf(map[], episodes)
  {
  }

  lemma GravesTogether(c: Core, source: Id, now: int)
    ensures Graves(c, source, now) == {SourceTarget(source)} + Graved(Gone(c, source)) + Emptied(ThinnedEpisodes(c, Gone(c, source), now))
  {
  }

  /** Tombstones can be written before, between or after the revisions. */
  lemma BuryCommutes(c: Core, events: map<Id, Event>, episodes: map<Id, Episode>, a: set<Target>, b: set<Target>, d: set<Target>)
    ensures Bury(PutEpisodes(Bury(PutEvents(Bury(c, a), events), b), episodes), d) == Bury(PutEpisodes(PutEvents(c, events), episodes), a + b + d)
  {
    hide EventRows, EpisodeRows, IndexOf;
    assert c.log.tombstones + a + b + d == c.log.tombstones + (a + b + d);
  }

  lemma RowIdsAreKeys(c: Core)
    requires LogOk(c)
    ensures forall v :: v in c.log.events ==> c.log.events[v].id == v.id
    ensures forall v :: v in c.log.episodes ==> c.log.episodes[v].id == v.id
  {
    forall v | v in c.log.events ensures c.log.events[v].id == v.id { assert EventRowOk(c, v); }
    forall v | v in c.log.episodes ensures c.log.episodes[v].id == v.id { assert EpisodeRowOk(c, v); }
  }

  lemma IndexKept(h: Heads, e: Event)
    requires h.index == IndexOf(h.events)
    ensures UpsertEvent(h, e).index == IndexOf(UpsertEvent(h, e).events) && UpsertEvent(h, e).events == h.events[e.id := e]
  {
    hide IndexOf;
  }

  function EventsReplayed(log: Log, heads: map<Id, Version>, done: set<Id>): (events: map<Id, Event>)
    requires done <= heads.Keys && forall id :: id in heads ==> heads[id] in log.events
    ensures events.Keys == done && forall id :: id in done ==> events[id] == BuriedEvent(log, log.events[heads[id]])
  {
    map id | id in done :: BuriedEvent(log, log.events[heads[id]])
  }

  lemma ReplayOneMore(log: Log, heads: map<Id, Version>, done: set<Id>, id: Id)
    requires done <= heads.Keys && id in heads && forall x :: x in heads ==> heads[x] in log.events
    ensures EventsReplayed(log, heads, done + {id}) == EventsReplayed(log, heads, done)[id := BuriedEvent(log, log.events[heads[id]])]
  {
    hide EventsReplayed, BuriedEvent;
  }

  lemma NothingIndexed()
    ensures IndexOf(map[]) == map[]
  {
    hide IndexOf;
  }

  lemma ReplayOneEvent(h: Heads, log: Log, heads: map<Id, Version>, done: set<Id>, id: Id)
    requires done <= heads.Keys && id in heads && forall x :: x in heads ==> heads[x] in log.events
    requires log.events[heads[id]].id == id && h.events == EventsReplayed(log, heads, done) && h.index == IndexOf(h.events)
    ensures var after := UpsertEvent(h, BuriedEvent(log, log.events[heads[id]]));
      after.events == EventsReplayed(log, heads, done + {id}) && after.index == IndexOf(after.events)
  {
    IndexKept(h, BuriedEvent(log, log.events[heads[id]]));
    ReplayOneMore(log, heads, done, id);
    hide EventsReplayed, IndexOf, UpsertEvent;
  }

  lemma AllEventsReplayed(log: Log, heads: map<Id, Version>)
    requires HeadsFound(log.events, heads)
    ensures EventsReplayed(log, heads, heads.Keys) == EventHeads(log)
  {
    hide EventsReplayed, EventHeads, BuriedEvent, IsHead;
    forall id | id in heads ensures id in EventHeads(log) && EventHeads(log)[id] == BuriedEvent(log, log.events[heads[id]]) {
      assert IsHead(log.events, heads[id]);
    }
  }

  function EpisodesReplayed(log: Log, heads: map<Id, Version>, done: set<Id>): (episodes: map<Id, Episode>)
    requires done <= heads.Keys && forall id :: id in heads ==> heads[id] in log.episodes
    ensures episodes.Keys == done && forall id :: id in done ==> episodes[id] == BuriedEpisode(log, log.episodes[heads[id]])
  {
    map id | id in done :: BuriedEpisode(log, log.episodes[heads[id]])
  }

  lemma ReplayOneMoreEpisode(log: Log, heads: map<Id, Version>, done: set<Id>, id: Id)
    requires done <= heads.Keys && id in heads && forall x :: x in heads ==> heads[x] in log.episodes
    ensures EpisodesReplayed(log, heads, done + {id}) == EpisodesReplayed(log, heads, done)[id := BuriedEpisode(log, log.episodes[heads[id]])]
  {
    hide EpisodesReplayed, BuriedEpisode;
  }

  lemma AllEpisodesReplayed(log: Log, heads: map<Id, Version>)
    requires HeadsFound(log.episodes, heads)
    ensures EpisodesReplayed(log, heads, heads.Keys) == EpisodeHeads(log)
  {
    hide EpisodesReplayed, EpisodeHeads, BuriedEpisode, IsHead;
    forall id | id in heads ensures id in EpisodeHeads(log) && EpisodeHeads(log)[id] == BuriedEpisode(log, log.episodes[heads[id]]) {
      assert IsHead(log.episodes, heads[id]);
    }
  }

  /** The keys rebuild refreshes are those that have a ledger already. */
  lemma RebuiltKeys(c: Core)
    requires Grounded(c)
    ensures KeysOf(EventHeads(c.log), EpisodeHeads(c.log)) <= c.days.identities.Keys
  {
    assert EventHeads(c.log) == BuriedEvents(c.log, c.heads.events) && EpisodeHeads(c.log) == c.heads.episodes by {
      hide EventHeads, EpisodeHeads, LogOk, IndexOf;
      RebuiltHeads(c);
    }
    hide EventHeads, EpisodeHeads, LogOk;
    KeysHeld(c, BuriedEvents(c.log, c.heads.events), c.heads.episodes);
  }
}
