/** Runs that reach the states in which the store does not keep its promises. */
module CoreExamples {
  import opened Json
  import opened CoreModel
  import opened CoreLedger
  import opened CoreRebuild
  import opened CoreSupport
  import opened CoreZones

  lemma RunOneMore(commands: seq<Command>, last: Command)
    ensures Run(commands + [last]) == Step(Run(commands), last)
  {
    assert (commands + [last])[..|commands|] == commands;
  }

  const RANGE := TimeRange("2024-05-01T10:00:00Z", None)

  const NOTE := NewEvent("me", "home", "note", RANGE, Written("a"), Written("b"), Confirmed, "normal",
                         [Evidence("title", {3, 4}, 0.5, Inferred)])

  /** What is true of the store once the note has two sources, 1 and 2, with the observations 3 and 4; it is event 5. */
  ghost predicate Noted(c: Core, revision: nat, state: State, gone: bool) {
    && c.facts.sources.Keys == {1, 2} && c.facts.sources[1].deleted == gone && !c.facts.sources[2].deleted
    && c.facts.sources[1].space == "home" && c.facts.sources[2].space == "home"
    && c.facts.observations == map[3 := Observation(1, "home", Inferred, 0.5), 4 := Observation(2, "home", Inferred, 0.5)]
    && c.heads.events.Keys == {5}
    && var e := c.heads.events[5];
       && e.revision == revision && e.state == state && e.evidence == NOTE.evidence && e.fact == Confirmed
       && e.owner == "me" && e.space == "home" && e.range == RANGE && e.date == RANGE.start[..10]
  }

  /** Two captures, an observation of each, and a note that rests on both. */
  function Noting(): seq<Command> {
    [Capture("me", "home"), Capture("me", "home"), Observe(Observation(1, "home", Inferred, 0.5)),
     Observe(Observation(2, "home", Inferred, 0.5)), Accept(NOTE, 0)]
  }

  lemma NotingObserves()
    ensures var c := Run(Noting()[..4]);
      && c.nextId == 5 && c.heads.events == map[]
      && c.facts.sources == map[1 := Source("me", "home", false), 2 := Source("me", "home", false)]
      && c.facts.observations == map[3 := Observation(1, "home", Inferred, 0.5), 4 := Observation(2, "home", Inferred, 0.5)]
  {
    var n := Noting();
    assert n[..1] == [] + [n[0]] && n[..2] == n[..1] + [n[1]] && n[..3] == n[..2] + [n[2]] && n[..4] == n[..3] + [n[3]];
    RunOneMore([], n[0]);
    RunOneMore(n[..1], n[1]);
    RunOneMore(n[..2], n[2]);
    RunOneMore(n[..3], n[3]);
    assert Run([]) == Fresh;
  }

  lemma NotingNotes()
    ensures Noted(Run(Noting()), 1, Active, false)
  {
    var n := Noting();
    var c := Run(n[..4]);
    NotingObserves();
    hide Run, Step, Noted;
    assert n == n[..4] + [n[4]];
    RunOneMore(n[..4], n[4]);
    NoteIsAdded(c);
  }

  lemma NoteIsAdded(c: Core)
    requires c.nextId == 5 && c.heads.events == map[]
    requires c.facts.sources == map[1 := Source("me", "home", false), 2 := Source("me", "home", false)]
    requires c.facts.observations == map[3 := Observation(1, "home", Inferred, 0.5), 4 := Observation(2, "home", Inferred, 0.5)]
    ensures Noted(Step(c, Accept(NOTE, 0)), 1, Active, false)
  {
    hide EventRefused, AddEvent, Noted, FirstEvent;
    NoteIsAccepted(c);
    AddParts(c, NOTE, 0);
    FirstNote(c, Step(c, Accept(NOTE, 0)));
  }

  lemma FirstNote(c: Core, d: Core)
    requires c.nextId == 5 && c.heads.events == map[]
    requires c.facts.sources == map[1 := Source("me", "home", false), 2 := Source("me", "home", false)]
    requires c.facts.observations == map[3 := Observation(1, "home", Inferred, 0.5), 4 := Observation(2, "home", Inferred, 0.5)]
    requires var e := FirstEvent(c, NOTE, 0); d.facts == c.facts && d.heads.events == c.heads.events[e.id := e]
    ensures Noted(d, 1, Active, false)
  {
    assert d.heads.events.Keys == {5};
  }

  lemma NoteIsAccepted(c: Core)
    requires c.facts.sources == map[1 := Source("me", "home", false), 2 := Source("me", "home", false)]
    requires c.facts.observations == map[3 := Observation(1, "home", Inferred, 0.5), 4 := Observation(2, "home", Inferred, 0.5)]
    ensures !EventRefused(c, NOTE)
  {
    forall ev | ev in NOTE.evidence ensures EvidenceUsable(c.facts, "home", ev) {
      assert forall o :: o in ev.observations ==> ObservationUsable(c.facts, "home", o);
    }
  }

  lemma NoteCitesBoth(c: Core, revision: nat, state: State, gone: bool)
    requires Noted(c, revision, state, gone)
    ensures Cites(c.facts.observations, c.heads.events[5], 1) && Cites(c.facts.observations, c.heads.events[5], 2)
  {
    var e := c.heads.events[5];
    assert e.evidence[0] in e.evidence;
    assert 3 in ObservationsIn(e.evidence) && 4 in ObservationsIn(e.evidence);
    assert c.facts.observations[3].source == 1 && c.facts.observations[4].source == 2;
  }

  /** The state of the note is set. */
  lemma NoteIsSet(c: Core, revision: nat, before: State, after: State, gone: bool)
    requires Grounded(c) && Noted(c, revision, before, gone) && after != InConflict
    ensures Noted(Step(c, Append(5, revision, NoChanges.(state := Some(after)), None, 0)), revision + 1, after, gone)
  {
    var changes := NoChanges.(state := Some(after));
    hide Grounded, AppendRevision, Noted, AppendedEvent;
    NoteAccepts(c, revision, before, gone, changes);
    AppendParts(c, 5, revision, changes, None, 0);
    NextNote(c, Step(c, Append(5, revision, changes, None, 0)), revision, before, after, gone);
  }

  lemma NextNote(c: Core, d: Core, revision: nat, before: State, after: State, gone: bool)
    requires Noted(c, revision, before, gone) && after != InConflict && d.facts == c.facts
    requires d.heads.events == c.heads.events[5 := AppendedEvent(c, 5, NoChanges.(state := Some(after)), None, 0)]
    ensures Noted(d, revision + 1, after, gone)
  {
    assert d.heads.events.Keys == {5};
  }

  lemma NoteAccepts(c: Core, revision: nat, state: State, gone: bool, changes: Changes)
    requires Noted(c, revision, state, gone) && changes.fact.None? && changes.range.None?
    ensures AppendRevision(c, 5, revision, changes, None, 0).Done?
  {
    hide ReplaceEvent, AppendedEvent;
  }

  /** A deletion leaves the events it does not affect. */
  lemma UnaffectedStay(c: Core, source: Id, now: int)
    requires source in c.facts.sources
    ensures var d := Deletion(c, source, now);
      && d.facts == MarkDeleted(c.facts, source) && d.heads.events.Keys == c.heads.events.Keys
      && forall id :: id in c.heads.events && id !in Affected(c, source) ==> d.heads.events[id] == c.heads.events[id]
  {
    hide Deletion, MarkDeleted, Affected, RecomputedEvents;
    DeletionParts(c, source, now);
    RecomputedAreAffected(c, source, now);
  }

  lemma RecomputedAreAffected(c: Core, source: Id, now: int)
    ensures RecomputedEvents(c, source, now).Keys == Affected(c, source) <= c.heads.events.Keys
  {
    hide Recomputed, Cites;
  }

  lemma NobodyBlocks(c: Core, source: Id, now: int)
    requires source in c.facts.sources && !c.facts.sources[source].deleted && forall id :: id in c.heads.events ==> !c.heads.events[id].Live()
    ensures Step(c, Delete(source, now)) == Deletion(c, source, now) && Affected(c, source) == {}
  {
    hide Deletion;
  }

  lemma NoteStays(c: Core, d: Core, revision: nat)
    requires Noted(c, revision, Deleted, false) && 1 in c.facts.sources && d.facts == MarkDeleted(c.facts, 1)
    requires d.heads.events.Keys == c.heads.events.Keys && forall id :: id in c.heads.events ==> d.heads.events[id] == c.heads.events[id]
    ensures Noted(d, revision, Deleted, true)
  {
  }

  lemma NoteIsDeleted(c: Core, revision: nat)
    requires Noted(c, revision, Deleted, false)
    ensures 1 in c.facts.sources && !c.facts.sources[1].deleted && forall id :: id in c.heads.events ==> !c.heads.events[id].Live()
  {
  }

  lemma SourceIsDeleted(commands: seq<Command>, revision: nat)
    requires Noted(Run(commands), revision, Deleted, false)
    ensures Noted(Run(commands + [Delete(1, 0)]), revision, Deleted, true)
  {
    hide Run, Deletion, Step, Affected, Noted, MarkDeleted;
    var c := Run(commands);
    RunOneMore(commands, Delete(1, 0));
    NoteIsDeleted(c, revision);
    NobodyBlocks(c, 1, 0);
    UnaffectedStay(c, 1, 0);
    NoteStays(c, Deletion(c, 1, 0), revision);
  }

  /** The note is deleted, one of its sources too, and the note is made live again. */
  function Reviving(): seq<Command> {
    Noting() + [Append(5, 1, NoChanges.(state := Some(Deleted)), None, 0)] + [Delete(1, 0)]
      + [Append(5, 2, NoChanges.(state := Some(Active)), None, 0)]
  }

  lemma RevivingRevives()
    ensures Noted(Run(Reviving()), 3, Active, true)
  {
    var a := Noting();
    var b := a + [Append(5, 1, NoChanges.(state := Some(Deleted)), None, 0)];
    var c := b + [Delete(1, 0)];
    hide Run, Step, Noted;
    NotingNotes();
    RunKeepsGrounded(a);
    NoteIsSet(Run(a), 1, Active, Deleted, false);
    RunOneMore(a, Append(5, 1, NoChanges.(state := Some(Deleted)), None, 0));
    SourceIsDeleted(b, 2);
    RunKeepsGrounded(c);
    NoteIsSet(Run(c), 2, Deleted, Active, true);
    RunOneMore(c, Append(5, 2, NoChanges.(state := Some(Active)), None, 0));
  }

  /** A run after which an undeleted source can no longer be deleted. */
  lemma RevivalBlocksDeletion(now: int)
    ensures var c := Run(Reviving());
      && 2 in c.facts.sources && !c.facts.sources[2].deleted && DeleteSource(c, 2, now).Refused?
  {
    var c := Run(Reviving());
    RevivingRevives();
    NoteCitesBoth(c, 3, Active, true);
    DeletableExactly(Reviving(), 2, now);
    hide Run, Reviving, DeleteSource;
    assert 1 in SourcesOf(c.facts.observations, c.heads.events[5].evidence);
    assert !OthersLeft(c.facts, 2, c.heads.events[5]);
  }

  /** A revision without changes or new evidence is always possible. */
  lemma NothingRefused(c: Core, id: Id, now: int)
    requires Supported(c) && id in c.heads.events
    ensures var revision := c.heads.events[id].revision;
      && AppendRevision(c, id, revision, NoChanges, None, now).Done?
      && Step(c, Append(id, revision, NoChanges, None, now)) == AppendRevision(c, id, revision, NoChanges, None, now).core
  {
    assert HeadSupported(c, id);
    hide ReplaceEvent, AppendedEvent;
  }

  lemma ReadingParts(c: Core, key: DayKey)
    requires Grounded(c)
    ensures var d := Today(c, key); d.heads == c.heads && d.facts == c.facts && key in d.days.identities
  {
    assert key in c.days.ledgers ==> key in c.days.identities.Keys + {};
    hide LedgerOf;
  }

  lemma DayIsRead(commands: seq<Command>, key: DayKey)
    ensures var c := Run(commands + [ReadDay(key)]); c.heads == Run(commands).heads && key in c.days.identities
  {
    RunOneMore(commands, ReadDay(key));
    RunKeepsGrounded(commands);
    assert Step(Run(commands), ReadDay(key)) == Today(Run(commands), key);
    hide Run, Step, Today, Grounded;
    ReadingParts(Run(commands), key);
  }

  /** Any event gives rise to a second zone: its day is read in another zone, and the next revision leaves that ledger
      behind. */
  lemma SecondZoneGoesStale(commands: seq<Command>, id: Id, zone: string, now: int)
    requires var c := Run(commands); id in c.heads.events && zone != c.heads.events[id].Key().zone
    ensures var e := Run(commands).heads.events[id];
      var d := Run(commands + [ReadDay(DayKey(e.On(), zone))] + [Append(id, e.revision, NoChanges, None, now)]);
      Rebuild(d) != d
  {
    hide Run, AppendRevision, Rebuild, Supported, LeavesOut, Grounded;
    var e := Run(commands).heads.events[id];
    var key := DayKey(e.On(), zone);
    var reading := commands + [ReadDay(key)];
    DayIsRead(commands, key);
    RunKeepsSupported(reading);
    RunKeepsGrounded(reading);
    NothingRefused(Run(reading), id, now);
    RevisionLeavesOut(Run(reading), Append(id, e.revision, NoChanges, None, now), key);
    OtherZoneGoesStale(reading, Append(id, e.revision, NoChanges, None, now), key);
  }

  /** And so there is a run with one event and two zones that rebuild changes. */
  lemma TwoZonesDiffer()
    ensures var day := Day("me", "home", RANGE.start[..10]);
      var d := Run(Noting() + [ReadDay(DayKey(day, "Europe/Berlin"))] + [Append(5, 1, NoChanges, None, 0)]);
      Rebuild(d) != d
  {
    NotingNotes();
    SecondZoneGoesStale(Noting(), 5, "Europe/Berlin", 0);
    hide Run, Rebuild;
  }
}
