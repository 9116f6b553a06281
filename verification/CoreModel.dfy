/** The Core event store: append-only revisions, the projections kept beside them, and the commands that change
    them (core.py). Each command is one transaction: it is either done or refused without a trace. */
module CoreModel {
  import opened Json

  type Id = nat

  // ---- evidence ----

  datatype EvidenceStatus = Observed | UserAsserted | Inferred | Planned | Disputed | Unknown | OtherStatus(name: string)

  datatype FactStatus =
    | Confirmed | HighConfidence | LowConfidence | ConflictFact | UserFact | PlannedFact | OtherFact(name: string)

  datatype Source = Source(owner: string, space: string, deleted: bool)

  datatype Observation = Observation(source: Id, space: string, status: EvidenceStatus, confidence: real)

  /** One entry of an event's field evidence. */
  datatype Evidence = Evidence(field: string, observations: set<Id>, confidence: real, status: EvidenceStatus)

  type Observations = map<Id, Observation>

  datatype Facts = Facts(sources: map<Id, Source>, observations: Observations)

  // ---- events and episodes ----

  /** `zone` absent means UTC. */
  datatype TimeRange = TimeRange(start: string, zone: Option<string>)

  datatype State = Active | InConflict | Deleted | OtherState(name: string)

  /** A local day of one owner in one space. */
  datatype Day = Day(owner: string, space: string, date: string)

  /** What a ledger is kept for: a day as one time zone has it. */
  datatype DayKey = DayKey(day: Day, zone: string)

  /** Titles and descriptions: as given, or as a deletion rewrites them. */
  datatype Text = Written(text: string) | LabelOf(eventType: string) | RecomputedFrom(fields: set<string>)

  /** A snapshot: the content of one event revision. */
  datatype Event = Event(
    id: Id, owner: string, space: string, eventType: string, range: TimeRange, date: string,
    title: Text, description: Text, fact: FactStatus, evidence: seq<Evidence>, sources: set<Id>,
    revision: nat, sensitivity: string, state: State, updatedAt: int)
  {
    function On(): Day { Day(owner, space, date) }
    function Key(): DayKey { DayKey(On(), range.zone.GetOr("UTC")) }
    predicate Live() { state != Deleted }
  }

  datatype Ref = Ref(event: Id, revision: nat, role: string)

  datatype Episode = Episode(
    id: Id, owner: string, space: string, title: string, range: TimeRange, date: string, refs: seq<Ref>,
    revision: nat, sensitivity: string, state: State, updatedAt: int)
  {
    function On(): Day { Day(owner, space, date) }
    function Key(): DayKey { DayKey(On(), range.zone.GetOr("UTC")) }
    predicate Live() { state != Deleted }
  }

  // ---- the tables ----

  datatype Version = Version(id: Id, revision: nat)

  datatype Target = SourceTarget(id: Id) | EventTarget(id: Id) | EpisodeTarget(id: Id)

  /** What is never rewritten: the revisions of events and episodes, and the tombstones. */
  datatype Log = Log(events: map<Version, Event>, episodes: map<Version, Episode>, tombstones: set<Target>)

  datatype Indexed = Indexed(title: Text, description: Text)

  /** The current projections and the full-text rows. */
  datatype Heads = Heads(events: map<Id, Event>, index: map<Id, Indexed>, episodes: map<Id, Episode>)

  datatype EntryKind = EventEntry | EpisodeEntry

  datatype Entry = Entry(kind: EntryKind, id: Id, revision: nat, start: string)

  /** A day ledger with its entries; the table orders them by start, kind and id only when they are read. */
  datatype Ledger = Ledger(
    revision: nat, coverage: string, reasons: set<string>, summary: string, entries: set<Entry>)

  datatype Coverage = Coverage(state: string, reasons: set<string>, version: nat)

  /** Ledger identities, coverage inputs and ledgers; the ledger id stands for its key. */
  datatype Days = Days(identities: map<DayKey, Id>, coverage: map<DayKey, Coverage>, ledgers: map<DayKey, Ledger>)

  datatype Core = Core(facts: Facts, log: Log, heads: Heads, days: Days, nextId: Id)

  const Fresh := Core(Facts(map[], map[]), Log(map[], map[], {}), Heads(map[], map[], map[]), Days(map[], map[], map[]), 1)

  /** A transaction that raises is rolled back. */
  datatype Outcome = Done(core: Core) | Refused

  // ---- the day ledger ----

  function EpisodesOn(heads: Heads, day: Day): set<Id> {
    set id | id in heads.episodes && heads.episodes[id].Live() && heads.episodes[id].On() == day
  }

  function EventsOn(heads: Heads, day: Day): set<Id> {
    set id | id in heads.events && heads.events[id].Live() && heads.events[id].On() == day
  }

  predicate InEpisodeOn(heads: Heads, day: Day, event: Id) {
    exists id :: id in EpisodesOn(heads, day) && exists ref :: ref in heads.episodes[id].refs && ref.event == event
  }

  /** The live episodes of the day, and the live events of the day that are in none of them. */
  function EntriesOf(heads: Heads, day: Day): set<Entry> {
    (set id | id in EpisodesOn(heads, day) ::
       Entry(EpisodeEntry, id, heads.episodes[id].revision, heads.episodes[id].range.start)) +
    (set id | id in EventsOn(heads, day) && !InEpisodeOn(heads, day, id) ::
       Entry(EventEntry, id, heads.events[id].revision, heads.events[id].range.start))
  }

  function RevisionsOn(log: Log, day: Day): nat {
    |set v | v in log.events && log.events[v].On() == day| + |set v | v in log.episodes && log.episodes[v].On() == day|
  }

  function CoverageVersion(days: Days, key: DayKey): nat {
    if key in days.coverage then days.coverage[key].version else 0
  }

  /** What the ledger of a key should hold, computed from the revisions, the projections and the coverage input. */
  function LedgerOf(c: Core, key: DayKey): Ledger {
    var entries := EntriesOf(c.heads, key.day);
    Ledger(
      1 + RevisionsOn(c.log, key.day) + CoverageVersion(c.days, key),
      if key in c.days.coverage then c.days.coverage[key].state else if entries != {} then "sparse" else "empty",
      if key in c.days.coverage then c.days.coverage[key].reasons else {},
      if entries == {} then "insufficient" else "absent",
      entries)
  }

  /** _ledger_identity: the id of a key, taken from the sequence the first time. */
  function Identify(c: Core, key: DayKey): Core {
    if key in c.days.identities then c
    else c.(days := c.days.(identities := c.days.identities[key := c.nextId]), nextId := c.nextId + 1)
  }

  /** _refresh_ledger. */
  function Refresh(c: Core, key: DayKey): Core {
    var c1 := Identify(c, key);
    c1.(days := c1.days.(ledgers := c1.days.ledgers[key := LedgerOf(c1, key)]))
  }

  /** _refresh_ledger over a set of keys that have their ids already. */
  function RefreshAll(c: Core, keys: set<DayKey>): Core {
    c.(days := c.days.(ledgers := c.days.ledgers + LedgersOf(c, keys)))
  }

  function LedgersOf(c: Core, keys: set<DayKey>): (ledgers: map<DayKey, Ledger>)
    ensures ledgers.Keys == keys && forall key :: key in keys ==> ledgers[key] == LedgerOf(c, key)
  {
    map key | key in keys :: LedgerOf(c, key)
  }

  // ---- writing a revision ----

  /** _insert_event_revision and _upsert_event_current. */
  function PutEvent(c: Core, e: Event): Core {
    c.(log := c.log.(events := c.log.events[Version(e.id, e.revision) := e]), heads := UpsertEvent(c.heads, e))
  }

  function UpsertEvent(h: Heads, e: Event): Heads {
    h.(events := h.events[e.id := e],
       index := if e.Live() then h.index[e.id := Indexed(e.title, e.description)] else h.index - {e.id})
  }

  function PutEpisode(c: Core, e: Episode): Core {
    c.(log := c.log.(episodes := c.log.episodes[Version(e.id, e.revision) := e]),
       heads := c.heads.(episodes := c.heads.episodes[e.id := e]))
  }

  // ---- validation ----

  /** _local_date: the first ten characters of the start. */
  function LocalDate(range: TimeRange): Option<string> {
    if |range.start| < 10 then None else Some(range.start[..10])
  }

  predicate ObservationUsable(facts: Facts, space: string, o: Id) {
    && o in facts.observations && facts.observations[o].space == space
    && facts.observations[o].source in facts.sources && !facts.sources[facts.observations[o].source].deleted
  }

  predicate EvidenceUsable(facts: Facts, space: string, ev: Evidence) {
    && ev.field != "" && ev.observations != {} && !ev.status.OtherStatus? && 0.0 <= ev.confidence <= 1.0
    && forall o :: o in ev.observations ==> ObservationUsable(facts, space, o)
  }

  /** _validate_evidence, and the primary key of field_evidence: a field cites an observation once. */
  predicate EvidenceAccepted(facts: Facts, space: string, evidence: seq<Evidence>) {
    && (forall ev :: ev in evidence ==> EvidenceUsable(facts, space, ev))
    && CitedOnce(evidence)
  }

  predicate CitedOnce(evidence: seq<Evidence>) {
    forall i, j :: 0 <= i < j < |evidence| && evidence[i].field == evidence[j].field ==>
      evidence[i].observations !! evidence[j].observations
  }

  function ObservationsIn(evidence: seq<Evidence>): set<Id> {
    set ev, o | ev in evidence && o in ev.observations :: o
  }

  /** The sources behind a list of evidence. */
  function SourcesOf(seen: Observations, evidence: seq<Evidence>): set<Id> {
    set o | o in ObservationsIn(evidence) && o in seen :: seen[o].source
  }

  // ---- commands ----

  datatype NewEvent = NewEvent(
    owner: string, space: string, eventType: string, range: TimeRange, title: Text, description: Text,
    fact: FactStatus, sensitivity: string, evidence: seq<Evidence>)

  datatype Changes = Changes(
    title: Option<Text>, description: Option<Text>, fact: Option<FactStatus>, state: Option<State>,
    range: Option<TimeRange>, sensitivity: Option<string>)

  datatype NewEpisode = NewEpisode(owner: string, space: string, title: string, range: TimeRange, sensitivity: string, refs: seq<Ref>)

  function CaptureSource(c: Core, owner: string, space: string): Core {
    c.(facts := c.facts.(sources := c.facts.sources[c.nextId := Source(owner, space, false)]), nextId := c.nextId + 1)
  }

  predicate UsableObservationStatus(status: EvidenceStatus) {
    status in {Observed, UserAsserted, Planned, Inferred}
  }

  function CreateObservation(c: Core, o: Observation): Outcome {
    if o.source !in c.facts.sources || c.facts.sources[o.source].deleted || c.facts.sources[o.source].space != o.space then Refused
    else if !UsableObservationStatus(o.status) || !(0.0 <= o.confidence <= 1.0) then Refused
    else Done(c.(facts := c.facts.(observations := c.facts.observations[c.nextId := o]), nextId := c.nextId + 1))
  }

  predicate EventRefused(c: Core, n: NewEvent) {
    n.fact.OtherFact? || n.evidence == [] || !EvidenceAccepted(c.facts, n.space, n.evidence) || LocalDate(n.range).None?
  }

  function FirstEvent(c: Core, n: NewEvent, now: int): Event {
    Event(c.nextId, n.owner, n.space, n.eventType, n.range, LocalDate(n.range).GetOr(""), n.title, n.description,
          n.fact, n.evidence, SourcesOf(c.facts.observations, n.evidence), 1, n.sensitivity,
          if n.fact == ConflictFact then InConflict else Active, now)
  }

  function AddEvent(c: Core, e: Event): Core {
    Refresh(PutEvent(c.(nextId := c.nextId + 1), e), e.Key())
  }

  function AcceptEvent(c: Core, n: NewEvent, now: int): Outcome {
    if EventRefused(c, n) then Refused else Done(AddEvent(c, FirstEvent(c, n, now)))
  }

  /** The snapshot _append_event_revision_tx writes. A conflict status decides the state, whatever was asked for. */
  function Revised(e: Event, changes: Changes, evidence: seq<Evidence>, sources: set<Id>, now: int): Event {
    var fact := changes.fact.GetOr(e.fact);
    var asked := changes.state.GetOr(e.state);
    var state := if fact == ConflictFact then InConflict else if asked == InConflict then Active else asked;
    var range := changes.range.GetOr(e.range);
    var date := if changes.range.Some? then LocalDate(range).GetOr(e.date) else e.date;
    e.(title := changes.title.GetOr(e.title), description := changes.description.GetOr(e.description), fact := fact,
       state := state, range := range, date := date, sensitivity := changes.sensitivity.GetOr(e.sensitivity),
       evidence := evidence, sources := sources, revision := e.revision + 1, updatedAt := now)
  }

  predicate AppendRefused(c: Core, id: Id, base: nat, changes: Changes, evidence: Option<seq<Evidence>>) {
    || id !in c.heads.events || c.heads.events[id].revision != base
    || changes.fact.GetOr(c.heads.events[id].fact).OtherFact?
    || (changes.range.Some? && LocalDate(changes.range.value).None?)
    || (evidence.Some? && !EvidenceAccepted(c.facts, c.heads.events[id].space, evidence.value))
  }

  function AppendedEvent(c: Core, id: Id, changes: Changes, evidence: Option<seq<Evidence>>, now: int): Event
    requires id in c.heads.events
  {
    var e := c.heads.events[id].(id := id);
    match evidence
    case None => Revised(e, changes, e.evidence, e.sources, now)
    case Some(list) => Revised(e, changes, list, SourcesOf(c.facts.observations, list), now)
  }

  /** _append_event_revision_tx: the day the event is on now, and the day it was on if it moved, are refreshed, both
      in the zone it has now. */
  function AppendRevision(c: Core, id: Id, base: nat, changes: Changes, evidence: Option<seq<Evidence>>, now: int): Outcome {
    if AppendRefused(c, id, base, changes, evidence) then Refused
    else Done(ReplaceEvent(c, AppendedEvent(c, id, changes, evidence, now)))
  }

  function ReplaceEvent(c: Core, e: Event): Core
    requires e.id in c.heads.events
  {
    var before := c.heads.events[e.id];
    var c1 := Refresh(PutEvent(c, e), e.Key());
    if before.date != e.date then Refresh(c1, DayKey(before.On(), e.Key().zone)) else c1
  }

  const NoChanges := Changes(None, None, None, None, None, None)

  function RecordConflict(c: Core, id: Id, competing: nat, now: int): Outcome {
    if id !in c.heads.events || competing >= c.heads.events[id].revision then Refused
    else
      AppendRevision(c, id, c.heads.events[id].revision, NoChanges.(fact := Some(ConflictFact), state := Some(InConflict)), None, now)
  }

  function UndoEvent(c: Core, id: Id, base: nat, restore: nat, now: int): Outcome {
    if id !in c.heads.events || c.heads.events[id].revision != base || Version(id, restore) !in c.log.events then Refused
    else
      var target := c.log.events[Version(id, restore)];
      if !EvidenceAccepted(c.facts, target.space, target.evidence) || SourcesOf(c.facts.observations, target.evidence) != target.sources then Refused
      else
        AppendRevision(c, id, base,
          Changes(Some(target.title), Some(target.description), Some(target.fact), Some(target.state), Some(target.range), None),
          Some(target.evidence), now)
  }

  predicate RefUsable(c: Core, owner: string, space: string, ref: Ref) {
    ref.event in c.heads.events && c.heads.events[ref.event].owner == owner && c.heads.events[ref.event].space == space
  }

  /** The references as stored: with the revision the event has now. */
  function PinRefs(c: Core, owner: string, space: string, refs: seq<Ref>): (pinned: seq<Ref>)
    requires forall ref :: ref in refs ==> RefUsable(c, owner, space, ref)
    ensures |pinned| == |refs|
  {
    if refs == [] then []
    else
      assert RefUsable(c, owner, space, refs[0]);
      [refs[0].(revision := c.heads.events[refs[0].event].revision)] + PinRefs(c, owner, space, refs[1..])
  }

  predicate EpisodeRefused(c: Core, n: NewEpisode) {
    n.refs == [] || LocalDate(n.range).None? || !(forall ref :: ref in n.refs ==> RefUsable(c, n.owner, n.space, ref))
  }

  function FirstEpisode(c: Core, n: NewEpisode, now: int): Episode
    requires !EpisodeRefused(c, n)
  {
    Episode(c.nextId, n.owner, n.space, n.title, n.range, LocalDate(n.range).value,
            PinRefs(c, n.owner, n.space, n.refs), 1, n.sensitivity, Active, now)
  }

  function AddEpisode(c: Core, e: Episode): Core {
    Refresh(PutEpisode(c.(nextId := c.nextId + 1), e), e.Key())
  }

  function CreateEpisode(c: Core, n: NewEpisode, now: int): Outcome {
    if EpisodeRefused(c, n) then Refused else Done(AddEpisode(c, FirstEpisode(c, n, now)))
  }

  const COVERAGE_STATES := {"empty", "sparse", "ready_local", "processing", "partial", "syncing", "permission_limited", "offline"}

  function SetCoverage(c: Core, key: DayKey, state: string, reasons: set<string>): Outcome {
    if state !in COVERAGE_STATES then Refused
    else
      var c1 := Identify(c, key);
      var input := Coverage(state, reasons, CoverageVersion(c.days, key) + 1);
      Done(Refresh(c1.(days := c1.days.(coverage := c1.days.coverage[key := input])), key))
  }

  /** today(): reading a ledger creates it. */
  function Today(c: Core, key: DayKey): Core {
    if key in c.days.ledgers then c else Refresh(c, key)
  }

  // ---- deleting a source ----

  function Surviving(seen: Observations, source: Id, observations: set<Id>): set<Id> {
    set o | o in observations && o in seen && seen[o].source != source
  }

  function StatusOf(statuses: set<EvidenceStatus>): EvidenceStatus {
    if Observed in statuses then Observed
    else if UserAsserted in statuses then UserAsserted
    else if Inferred in statuses then Inferred
    else if Planned in statuses then Planned
    else Unknown
  }

  function LeastConfidence(seen: Observations, c: real, observations: set<Id>): (r: real)
    ensures r <= c && (forall o :: o in observations && o in seen ==> r <= seen[o].confidence)
    ensures r == c || exists o :: o in observations && o in seen && r == seen[o].confidence
    decreases observations
  {
    if observations == {} then c
    else
      var o := LeastId(observations);
      var rest := LeastConfidence(seen, c, observations - {o});
      if o in seen && seen[o].confidence < rest then seen[o].confidence else rest
  }

  /** The ids of a set one by one, the least first. */
  function LeastId(ids: set<Id>): (least: Id)
    requires ids != {}
    ensures least in ids && forall o :: o in ids ==> least <= o
  {
    ThereIsALeast(ids);
    var least :| least in ids && forall o :: o in ids ==> least <= o;
    least
  }

  lemma ThereIsALeast(ids: set<Id>)
    requires ids != {}
    ensures exists least :: least in ids && forall o :: o in ids ==> least <= o
  {
    var o :| o in ids;
    LeastBelow(ids, o);
  }

  lemma LeastBelow(ids: set<Id>, o: Id)
    requires o in ids
    ensures exists least :: least in ids && forall o :: o in ids ==> least <= o
    decreases o
  {
    if smaller :| smaller in ids && smaller < o {
      LeastBelow(ids, smaller);
    } else {
      assert o in ids && forall x :: x in ids ==> o <= x;
    }
  }

  function StatusesOf(seen: Observations, observations: set<Id>): set<EvidenceStatus> {
    set o | o in observations && o in seen :: seen[o].status
  }

  /** One entry without the observations of a source. */
  function Stripped(seen: Observations, source: Id, ev: Evidence): Evidence {
    var left := Surviving(seen, source, ev.observations);
    Evidence(ev.field, left, LeastConfidence(seen, ev.confidence, left), StatusOf(StatusesOf(seen, left)))
  }

  /** _evidence_after_source_deletion: entries left without observations are dropped. */
  function EvidenceAfter(seen: Observations, source: Id, evidence: seq<Evidence>): seq<Evidence> {
    if evidence == [] then []
    else
      var first := Stripped(seen, source, evidence[0]);
      (if first.observations == {} then [] else [first]) + EvidenceAfter(seen, source, evidence[1..])
  }

  function FieldStatuses(evidence: seq<Evidence>): set<EvidenceStatus> {
    set ev | ev in evidence :: ev.status
  }

  /** _fact_status_from_evidence. */
  function FactFromEvidence(evidence: seq<Evidence>): FactStatus {
    var statuses := FieldStatuses(evidence);
    if Disputed in statuses then ConflictFact
    else if Inferred in statuses || Unknown in statuses then
      if forall ev :: ev in evidence ==> ev.confidence >= 0.7 then HighConfidence else LowConfidence
    else if Observed in statuses then Confirmed
    else if UserAsserted in statuses then UserFact
    else if Planned in statuses then PlannedFact
    else LowConfidence
  }

  predicate Cites(seen: Observations, e: Event, source: Id) {
    source in SourcesOf(seen, e.evidence)
  }

  /** The events deletion_impact lists: live, and citing the source in their current evidence. */
  function Affected(c: Core, source: Id): set<Id> {
    set id | id in c.heads.events && c.heads.events[id].Live() && Cites(c.facts.observations, c.heads.events[id], source)
  }

  /** The revision a source deletion gives an affected event: recomputed from the evidence that remains, or deleted. */
  function Recomputed(seen: Observations, source: Id, e: Event, now: int): Event {
    var remaining := EvidenceAfter(seen, source, e.evidence);
    if remaining == [] then Revised(e, NoChanges.(state := Some(Deleted)), e.evidence, e.sources, now)
    else
      var fact := FactFromEvidence(remaining);
      var state := if fact == ConflictFact then InConflict else Active;
      Revised(e,
        Changes(Some(LabelOf(e.eventType)), Some(RecomputedFrom(set ev | ev in remaining :: ev.field)), Some(fact), Some(state), None, None),
        remaining, SourcesOf(seen, remaining), now)
  }

  predicate Wiped(seen: Observations, source: Id, e: Event) {
    EvidenceAfter(seen, source, e.evidence) == []
  }

  function WithoutEvents(refs: seq<Ref>, gone: set<Id>): seq<Ref> {
    if refs == [] then []
    else (if refs[0].event in gone then [] else [refs[0]]) + WithoutEvents(refs[1..], gone)
  }

  /** An episode without some events; without any event left it is deleted. */
  function Thinned(e: Episode, gone: set<Id>, now: int): Episode {
    var refs := WithoutEvents(e.refs, gone);
    e.(refs := refs, state := if refs == [] then Deleted else Active, revision := e.revision + 1, updatedAt := now)
  }

  function Thinning(heads: Heads, gone: set<Id>): set<Id> {
    set id | id in heads.episodes && heads.episodes[id].Live() && exists ref :: ref in heads.episodes[id].refs && ref.event in gone
  }

  function MarkDeleted(facts: Facts, source: Id): Facts
    requires source in facts.sources
  {
    facts.(sources := facts.sources[source := facts.sources[source].(deleted := true)])
  }

  /** An affected event that keeps evidence must pass validation again, its remaining sources included. */
  predicate DeletionBlocked(facts: Facts, source: Id, e: Event) {
    || (exists o :: o in ObservationsIn(e.evidence) && o !in facts.observations)
    || (Wiped(facts.observations, source, e) && e.fact.OtherFact?)
    || (!Wiped(facts.observations, source, e) && !EvidenceAccepted(facts, e.space, EvidenceAfter(facts.observations, source, e.evidence)))
  }

  predicate DeletionRefused(c: Core, source: Id) {
    || source !in c.facts.sources || c.facts.sources[source].deleted
    || exists id :: id in Affected(c, source) && DeletionBlocked(MarkDeleted(c.facts, source), source, c.heads.events[id])
  }

  function EventRows(changed: map<Id, Event>): (rows: map<Version, Event>)
    ensures forall v :: v in rows <==> v.id in changed && v.revision == changed[v.id].revision
    ensures forall v :: v in rows ==> rows[v] == changed[v.id]
  {
    var versions := set id | id in changed :: Version(id, changed[id].revision);
    map v | v in versions && v.id in changed :: changed[v.id]
  }

  function EpisodeRows(changed: map<Id, Episode>): (rows: map<Version, Episode>)
    ensures forall v :: v in rows <==> v.id in changed && v.revision == changed[v.id].revision
    ensures forall v :: v in rows ==> rows[v] == changed[v.id]
  {
    var versions := set id | id in changed :: Version(id, changed[id].revision);
    map v | v in versions && v.id in changed :: changed[v.id]
  }

  function Reindexed(index: map<Id, Indexed>, changed: map<Id, Event>): map<Id, Indexed> {
    (index - changed.Keys) + IndexOf(changed)
  }

  /** Many event revisions written at once. */
  function PutEvents(c: Core, changed: map<Id, Event>): Core {
    c.(log := c.log.(events := c.log.events + EventRows(changed)),
       heads := c.heads.(events := c.heads.events + changed, index := Reindexed(c.heads.index, changed)))
  }

  function PutEpisodes(c: Core, changed: map<Id, Episode>): Core {
    c.(log := c.log.(episodes := c.log.episodes + EpisodeRows(changed)),
       heads := c.heads.(episodes := c.heads.episodes + changed))
  }

  function Bury(c: Core, targets: set<Target>): Core {
    c.(log := c.log.(tombstones := c.log.tombstones + targets))
  }

  /** The new revisions of a source deletion. */
  function RecomputedEvents(c: Core, source: Id, now: int): map<Id, Event> {
    map id | id in Affected(c, source) :: Recomputed(c.facts.observations, source, c.heads.events[id], now)
  }

  function Gone(c: Core, source: Id): set<Id> {
    set id | id in Affected(c, source) && Wiped(c.facts.observations, source, c.heads.events[id])
  }

  function ThinnedEpisodes(c: Core, gone: set<Id>, now: int): map<Id, Episode> {
    map id | id in Thinning(c.heads, gone) :: Thinned(c.heads.episodes[id], gone, now)
  }

  function Emptied(changed: map<Id, Episode>): set<Target> {
    set id | id in changed && !changed[id].Live() :: EpisodeTarget(id)
  }

  function KeysOf(events: map<Id, Event>, episodes: map<Id, Episode>): set<DayKey> {
    (set id | id in events :: events[id].Key()) + (set id | id in episodes :: episodes[id].Key())
  }

  /** The tombstones of a deletion: the source, the events left without evidence, the episodes left without events. */
  function Graves(c: Core, source: Id, now: int): set<Target> {
    {SourceTarget(source)} + (set id | id in Gone(c, source) :: EventTarget(id)) + Emptied(ThinnedEpisodes(c, Gone(c, source), now))
  }

  /** What a deletion writes. The keys it refreshes all have their ledger ids already (see Grounded). */
  function Deletion(c: Core, source: Id, now: int): Core
    requires source in c.facts.sources
  {
    var events := RecomputedEvents(c, source, now);
    var episodes := ThinnedEpisodes(c, Gone(c, source), now);
    var c1 := PutEvents(c.(facts := MarkDeleted(c.facts, source)), events);
    RefreshAll(Bury(PutEpisodes(c1, episodes), Graves(c, source, now)), KeysOf(events, episodes))
  }

  /** delete_source. */
  function DeleteSource(c: Core, source: Id, now: int): Outcome {
    if DeletionRefused(c, source) then Refused else Done(Deletion(c, source, now))
  }

  // ---- rebuild ----

  predicate IsHead<T>(rows: map<Version, T>, v: Version) {
    v in rows && forall w :: w in rows && w.id == v.id ==> w.revision <= v.revision
  }

  function BuriedEvent(log: Log, e: Event): Event {
    if EventTarget(e.id) in log.tombstones then e.(state := Deleted) else e
  }

  function BuriedEpisode(log: Log, e: Episode): Episode {
    if EpisodeTarget(e.id) in log.tombstones then e.(state := Deleted) else e
  }

  function IndexOf(events: map<Id, Event>): (index: map<Id, Indexed>)
    ensures forall id :: id in index <==> id in events && events[id].Live()
    ensures forall id :: id in index ==> index[id] == Indexed(events[id].title, events[id].description)
  {
    map id | id in events && events[id].Live() :: Indexed(events[id].title, events[id].description)
  }

  function EventHeads(log: Log): (heads: map<Id, Event>)
    ensures forall id :: id in heads ==> exists v :: IsHead(log.events, v) && v.id == id
    ensures forall v :: IsHead(log.events, v) ==> v.id in heads && heads[v.id] == BuriedEvent(log, log.events[v])
  {
    map v | v in log.events && IsHead(log.events, v) :: v.id := BuriedEvent(log, log.events[v])
  }

  function EpisodeHeads(log: Log): (heads: map<Id, Episode>)
    ensures forall id :: id in heads ==> exists v :: IsHead(log.episodes, v) && v.id == id
    ensures forall v :: IsHead(log.episodes, v) ==> v.id in heads && heads[v.id] == BuriedEpisode(log, log.episodes[v])
  {
    map v | v in log.episodes && IsHead(log.episodes, v) :: v.id := BuriedEpisode(log, log.episodes[v])
  }

  /** The projections the revisions and tombstones alone determine. */
  function HeadsOf(log: Log): Heads {
    Heads(EventHeads(log), IndexOf(EventHeads(log)), EpisodeHeads(log))
  }

  /** rebuild(): projections, search rows and ledgers are dropped and computed again from the log. */
  function Rebuild(c: Core): Core {
    var heads := HeadsOf(c.log);
    var c1 := c.(heads := heads, days := c.days.(ledgers := map[]));
    RefreshAll(c1, KeysOf(heads.events, heads.episodes) + c.days.identities.Keys)
  }

  // ---- runs ----

  datatype Command =
    | Capture(owner: string, space: string)
    | Observe(observation: Observation)
    | Accept(event: NewEvent, now: int)
    | Append(id: Id, base: nat, changes: Changes, evidence: Option<seq<Evidence>>, now: int)
    | Conflict(id: Id, competing: nat, now: int)
    | Undo(id: Id, base: nat, restore: nat, now: int)
    | Group(episode: NewEpisode, now: int)
    | Cover(key: DayKey, state: string, reasons: set<string>)
    | ReadDay(key: DayKey)
    | Delete(source: Id, now: int)
    | RebuildAll

  function Execute(c: Core, command: Command): Outcome {
    match command
    case Capture(owner, space) => Done(CaptureSource(c, owner, space))
    case Observe(o) => CreateObservation(c, o)
    case Accept(e, now) => AcceptEvent(c, e, now)
    case Append(id, base, changes, evidence, now) => AppendRevision(c, id, base, changes, evidence, now)
    case Conflict(id, competing, now) => RecordConflict(c, id, competing, now)
    case Undo(id, base, restore, now) => UndoEvent(c, id, base, restore, now)
    case Group(e, now) => CreateEpisode(c, e, now)
    case Cover(key, state, reasons) => SetCoverage(c, key, state, reasons)
    case ReadDay(key) => Done(Today(c, key))
    case Delete(source, now) => DeleteSource(c, source, now)
    case RebuildAll => Done(Rebuild(c))
  }

  function Step(c: Core, command: Command): Core {
    match Execute(c, command)
    case Done(c1) => c1
    case Refused => c
  }

  function Run(commands: seq<Command>): Core {
    if commands == [] then Fresh else Step(Run(commands[..|commands| - 1]), commands[|commands| - 1])
  }
}
