/** What every run keeps of the evidence in the store, and exactly when a source can be deleted. */
module CoreSupport {
  import opened Json
  import opened CoreModel
  import opened CoreLedger
  import opened CoreRebuild
  import opened CoreCascade

  // ---- what evidence looks like in reachable states ----

  ghost predicate FactsOk(c: Core) {
    && (forall s :: s in c.facts.sources ==> s < c.nextId)
    && (forall o :: o in c.facts.observations ==> o < c.nextId && ObservationOk(c.facts, c.facts.observations[o]))
  }

  ghost predicate ObservationOk(facts: Facts, o: Observation) {
    o.source in facts.sources && 0.0 <= o.confidence <= 1.0
  }

  /** Every entry names a field, has a confidence, and cites known observations of the event's space, each once. */
  ghost predicate EvidenceSound(facts: Facts, e: Event) {
    && (forall ev :: ev in e.evidence ==> EntrySound(facts, e.space, ev))
    && CitedOnce(e.evidence)
  }

  ghost predicate EntrySound(facts: Facts, space: string, ev: Evidence) {
    && ev.field != "" && 0.0 <= ev.confidence <= 1.0
    && forall o :: o in ev.observations ==> o in facts.observations && facts.observations[o].space == space
  }

  ghost predicate EventSupported(facts: Facts, e: Event) {
    EvidenceSound(facts, e) && !e.fact.OtherFact?
  }

  ghost predicate HeadSupported(c: Core, id: Id) {
    id in c.heads.events ==> EventSupported(c.facts, c.heads.events[id])
  }

  ghost predicate Supported(c: Core) {
    FactsOk(c) && forall id :: HeadSupported(c, id)
  }

  ghost predicate AllSourcesLeft(facts: Facts, e: Event) {
    forall s :: s in SourcesOf(facts.observations, e.evidence) ==> s in facts.sources && !facts.sources[s].deleted
  }

  /** Besides this source, the event cites only sources that are not deleted. */
  ghost predicate OthersLeft(facts: Facts, source: Id, e: Event) {
    forall s :: s in SourcesOf(facts.observations, e.evidence) && s != source ==> s in facts.sources && !facts.sources[s].deleted
  }

  // ---- the evidence a deletion leaves ----

  lemma StrippedSound(facts: Facts, space: string, source: Id, ev: Evidence)
    requires EntrySound(facts, space, ev) && forall o :: o in facts.observations ==> ObservationOk(facts, facts.observations[o])
    ensures var left := Stripped(facts.observations, source, ev);
      && EntrySound(facts, space, left) && left.observations <= ev.observations && !left.status.OtherStatus?
      && left.field == ev.field
  {
  }

  lemma {:induction false} AfterSound(facts: Facts, space: string, source: Id, evidence: seq<Evidence>, left: Evidence)
    requires forall ev :: ev in evidence ==> EntrySound(facts, space, ev)
    requires forall o :: o in facts.observations ==> ObservationOk(facts, facts.observations[o])
    requires left in EvidenceAfter(facts.observations, source, evidence)
    ensures EntrySound(facts, space, left) && left.observations != {} && !left.status.OtherStatus?
  {
    StrippedSound(facts, space, source, evidence[0]);
    if left !in EvidenceAfter(facts.observations, source, evidence[1..]) {
      assert left == Stripped(facts.observations, source, evidence[0]);
    } else {
      AfterSound(facts, space, source, evidence[1..], left);
    }
  }

  /** What is left of an entry is part of an original one, at or after its place. */
  lemma {:induction false} AfterComesFrom(seen: Observations, source: Id, evidence: seq<Evidence>, i: nat) returns (k: nat)
    requires i < |EvidenceAfter(seen, source, evidence)|
    ensures i <= k < |evidence|
    ensures EvidenceAfter(seen, source, evidence)[i] == Stripped(seen, source, evidence[k])
  {
    var head := if Stripped(seen, source, evidence[0]).observations == {} then [] else [Stripped(seen, source, evidence[0])];
    if i < |head| {
      k := 0;
    } else {
      var j := AfterComesFrom(seen, source, evidence[1..], i - |head|);
      k := j + 1;
    }
  }

  lemma {:induction false} AfterCitesOnce(seen: Observations, source: Id, evidence: seq<Evidence>)
    requires CitedOnce(evidence)
    ensures CitedOnce(EvidenceAfter(seen, source, evidence))
  {
    if evidence != [] {
      var rest := EvidenceAfter(seen, source, evidence[1..]);
      var first := Stripped(seen, source, evidence[0]);
      AfterCitesOnce(seen, source, evidence[1..]);
      forall i | 0 <= i < |rest| && first.field == rest[i].field ensures first.observations !! rest[i].observations {
        var k := AfterComesFrom(seen, source, evidence[1..], i);
        assert evidence[1..][k] == evidence[k + 1];
        assert first.observations <= evidence[0].observations && rest[i].observations <= evidence[k + 1].observations;
      }
      var all := EvidenceAfter(seen, source, evidence);
      assert all == (if first.observations == {} then [] else [first]) + rest;
      forall i, j | 0 <= i < j < |all| && all[i].field == all[j].field ensures all[i].observations !! all[j].observations {
        if first.observations != {} && i == 0 {
          assert all[j] == rest[j - 1];
        }
      }
    }
  }

  lemma {:induction false} AfterSources(seen: Observations, source: Id, evidence: seq<Evidence>)
    ensures SourcesOf(seen, EvidenceAfter(seen, source, evidence)) == SourcesOf(seen, evidence) - {source}
    ensures EvidenceAfter(seen, source, evidence) == [] <==> SourcesOf(seen, evidence) <= {source}
  {
    EvidenceFirst(seen, source, evidence);
    FinalSources(seen, source, {source}, evidence);
  }

  // ---- when a deletion succeeds ----

  lemma AcceptedIsSound(c: Core, e: Event)
    requires EvidenceAccepted(c.facts, e.space, e.evidence)
    ensures EvidenceSound(c.facts, e) && AllSourcesLeft(c.facts, e)
  {
    forall ev | ev in e.evidence ensures EntrySound(c.facts, e.space, ev) {
      assert EvidenceUsable(c.facts, e.space, ev);
    }
    forall s | s in SourcesOf(c.facts.observations, e.evidence) ensures s in c.facts.sources && !c.facts.sources[s].deleted {
      var o :| o in ObservationsIn(e.evidence) && o in c.facts.observations && c.facts.observations[o].source == s;
      var ev :| ev in e.evidence && o in ev.observations;
      assert EvidenceUsable(c.facts, e.space, ev) && ObservationUsable(c.facts, e.space, o);
    }
  }

  /** An affected event lets the deletion pass exactly when its other sources are left. */
  lemma BlockedExactly(c: Core, source: Id, id: Id)
    requires Supported(c) && id in Affected(c, source) && source in c.facts.sources && !c.facts.sources[source].deleted
    ensures DeletionBlocked(MarkDeleted(c.facts, source), source, c.heads.events[id]) <==> !OthersLeft(c.facts, source, c.heads.events[id])
  {
    var e := c.heads.events[id];
    assert HeadSupported(c, id);
    AfterSources(c.facts.observations, source, e.evidence);
    KnownObservations(c.facts, e);
    if OthersLeft(c.facts, source, e) {
      RemainingAccepted(c, source, e);
    } else {
      hide EvidenceAccepted;
      RemainingRefused(c, source, e);
    }
  }

  lemma KnownObservations(facts: Facts, e: Event)
    requires EvidenceSound(facts, e)
    ensures forall o :: o in ObservationsIn(e.evidence) ==> o in facts.observations
  {
    forall o | o in ObservationsIn(e.evidence) ensures o in facts.observations {
      var ev :| ev in e.evidence && o in ev.observations;
      assert EntrySound(facts, e.space, ev);
    }
  }

  /** And not when one of them is deleted. */
  lemma RemainingRefused(c: Core, source: Id, e: Event)
    requires source in c.facts.sources && !OthersLeft(c.facts, source, e)
    ensures !EvidenceAccepted(MarkDeleted(c.facts, source), e.space, EvidenceAfter(c.facts.observations, source, e.evidence))
  {
    var facts := MarkDeleted(c.facts, source);
    var remaining := EvidenceAfter(c.facts.observations, source, e.evidence);
    AfterSources(c.facts.observations, source, e.evidence);
    var s :| s in SourcesOf(c.facts.observations, e.evidence) && s != source && !(s in c.facts.sources && !c.facts.sources[s].deleted);
    assert s in SourcesOf(facts.observations, remaining);
    if EvidenceAccepted(facts, e.space, remaining) {
      AcceptedIsSound(c.(facts := facts), e.(evidence := remaining));
    }
  }

  /** The evidence left passes validation when its sources are left. */
  lemma RemainingAccepted(c: Core, source: Id, e: Event)
    requires FactsOk(c) && EvidenceSound(c.facts, e) && source in c.facts.sources && OthersLeft(c.facts, source, e)
    ensures EvidenceAccepted(MarkDeleted(c.facts, source), e.space, EvidenceAfter(c.facts.observations, source, e.evidence))
  {
    var seen, facts := c.facts.observations, MarkDeleted(c.facts, source);
    var remaining := EvidenceAfter(seen, source, e.evidence);
    AfterSources(seen, source, e.evidence);
    AfterCitesOnce(seen, source, e.evidence);
    forall ev | ev in remaining ensures EvidenceUsable(facts, e.space, ev) {
      AfterSound(c.facts, e.space, source, e.evidence, ev);
      forall o | o in ev.observations ensures ObservationUsable(facts, e.space, o) {
        assert o in ObservationsIn(remaining);
        assert seen[o].source in SourcesOf(seen, remaining);
      }
    }
  }

  /** A source can be deleted exactly when it exists, is not deleted yet, and no live event cites it together with a
      deleted source. */
  lemma DeletionSucceedsExactly(c: Core, source: Id, now: int)
    requires Supported(c)
    ensures DeleteSource(c, source, now).Done? <==>
      && source in c.facts.sources && !c.facts.sources[source].deleted
      && forall id :: id in Affected(c, source) ==> OthersLeft(c.facts, source, c.heads.events[id])
  {
    if source in c.facts.sources && !c.facts.sources[source].deleted {
      hide Supported, DeletionBlocked, OthersLeft, Deletion;
      forall id | id in Affected(c, source)
        ensures DeletionBlocked(MarkDeleted(c.facts, source), source, c.heads.events[id]) <==> !OthersLeft(c.facts, source, c.heads.events[id])
      {
        BlockedExactly(c, source, id);
      }
    }
  }

  // ---- support is kept ----

  /** New facts leave the evidence of events as it was. */
  ghost predicate FactsGrow(f: Facts, g: Facts) {
    && (forall o :: o in f.observations ==> o in g.observations && g.observations[o] == f.observations[o])
    && (forall s :: s in f.sources ==> s in g.sources && g.sources[s] == f.sources[s])
  }

  lemma SourcesUnderGrowth(f: Facts, g: Facts, e: Event)
    requires EvidenceSound(f, e) && FactsGrow(f, g)
    ensures EvidenceSound(g, e) && SourcesOf(g.observations, e.evidence) == SourcesOf(f.observations, e.evidence)
  {
    forall ev | ev in e.evidence ensures EntrySound(g, e.space, ev) {
      assert EntrySound(f, e.space, ev);
    }
    forall o | o in ObservationsIn(e.evidence) ensures o in f.observations {
      var ev :| ev in e.evidence && o in ev.observations;
      assert EntrySound(f, e.space, ev);
    }
  }

  lemma GrowthKeepsSupported(c: Core, d: Core)
    requires Supported(c) && FactsGrow(c.facts, d.facts) && FactsOk(d) && d.heads.events == c.heads.events
    ensures Supported(d)
  {
    forall id ensures HeadSupported(d, id) {
      assert HeadSupported(c, id);
      if id in c.heads.events {
        SourcesUnderGrowth(c.facts, d.facts, c.heads.events[id]);
      }
    }
  }

  lemma CaptureGrows(c: Core, owner: string, space: string)
    requires FactsOk(c)
    ensures var d := CaptureSource(c, owner, space);
      FactsGrow(c.facts, d.facts) && FactsOk(d) && d.heads.events == c.heads.events
  {
  }

  lemma ObserveGrows(c: Core, o: Observation)
    requires FactsOk(c) && CreateObservation(c, o).Done?
    ensures var d := CreateObservation(c, o).core;
      FactsGrow(c.facts, d.facts) && FactsOk(d) && d.heads.events == c.heads.events
  {
  }

  lemma PutKeepsSupported(c: Core, d: Core, e: Event)
    requires Supported(c) && d.facts == c.facts && d.nextId >= c.nextId && d.heads.events == c.heads.events[e.id := e]
    requires EventSupported(c.facts, e)
    ensures Supported(d)
  {
    forall id ensures HeadSupported(d, id) {
      assert HeadSupported(c, id);
    }
  }

  lemma SideKeepsSupported(c: Core, d: Core)
    requires Supported(c) && d.facts == c.facts && d.heads.events == c.heads.events && d.nextId >= c.nextId
    ensures Supported(d)
  {
    forall id ensures HeadSupported(d, id) { assert HeadSupported(c, id); }
  }

  lemma AddParts(c: Core, n: NewEvent, now: int)
    requires AcceptEvent(c, n, now).Done?
    ensures var d, e := AcceptEvent(c, n, now).core, FirstEvent(c, n, now);
      && d.facts == c.facts && d.nextId > c.nextId && d.heads.events == c.heads.events[e.id := e]
  {
    hide LedgerOf, FirstEvent;
  }

  lemma AddKeepsSupported(c: Core, n: NewEvent, now: int)
    requires Supported(c) && AcceptEvent(c, n, now).Done?
    ensures Supported(AcceptEvent(c, n, now).core)
  {
    var e := FirstEvent(c, n, now);
    AcceptedIsSound(c, e);
    AddParts(c, n, now);
    hide Supported, EvidenceSound, AllSourcesLeft, AcceptEvent;
    PutKeepsSupported(c, AcceptEvent(c, n, now).core, e);
  }

  lemma AppendParts(c: Core, id: Id, base: nat, changes: Changes, evidence: Option<seq<Evidence>>, now: int)
    requires Grounded(c) && AppendRevision(c, id, base, changes, evidence, now).Done?
    ensures id in c.heads.events
    ensures var d, e := AppendRevision(c, id, base, changes, evidence, now).core, AppendedEvent(c, id, changes, evidence, now);
      && d.facts == c.facts && d.nextId >= c.nextId && d.heads.events == c.heads.events[id := e] && e.id == id
      && e.space == c.heads.events[id].space && !e.fact.OtherFact?
      && e.evidence == evidence.GetOr(c.heads.events[id].evidence)
  {
    var e := AppendedEvent(c, id, changes, evidence, now);
    assert EventHeadOk(c, id);
    hide Grounded, ReplaceEvent;
    ReplaceParts(c, e);
    ReplaceKeepsIds(c, e);
  }

  lemma ReplaceKeepsIds(c: Core, e: Event)
    requires e.id in c.heads.events
    ensures ReplaceEvent(c, e).nextId >= c.nextId
  {
    hide LedgerOf;
  }

  lemma AppendKeepsSupported(c: Core, id: Id, base: nat, changes: Changes, evidence: Option<seq<Evidence>>, now: int)
    requires Grounded(c) && Supported(c) && AppendRevision(c, id, base, changes, evidence, now).Done?
    ensures Supported(AppendRevision(c, id, base, changes, evidence, now).core)
  {
    var e := AppendedEvent(c, id, changes, evidence, now);
    AppendParts(c, id, base, changes, evidence, now);
    if evidence.Some? {
      AcceptedIsSound(c, e);
    } else {
      assert HeadSupported(c, id);
    }
    hide Grounded, AppendRevision, AppendedEvent, EvidenceSound, Supported;
    PutKeepsSupported(c, AppendRevision(c, id, base, changes, evidence, now).core, e);
  }

  /** An event an affected source is deleted from stays supported. */
  lemma RecomputedIsSupported(c: Core, source: Id, now: int, e: Event)
    requires FactsOk(c) && EventSupported(c.facts, e) && source in c.facts.sources
    ensures EventSupported(MarkDeleted(c.facts, source), Recomputed(c.facts.observations, source, e, now))
  {
    var seen, facts := c.facts.observations, MarkDeleted(c.facts, source);
    var after := Recomputed(seen, source, e, now);
    forall ev | ev in after.evidence ensures EntrySound(facts, after.space, ev) {
      if Wiped(seen, source, e) {
        assert EntrySound(c.facts, e.space, ev);
      } else {
        AfterSound(c.facts, e.space, source, e.evidence, ev);
      }
    }
    AfterCitesOnce(seen, source, e.evidence);
  }

  lemma DeletionKeepsSupported(c: Core, source: Id, now: int)
    requires Supported(c) && source in c.facts.sources
    ensures Supported(Deletion(c, source, now))
  {
    var d := Deletion(c, source, now);
    hide Deletion, Recomputed, EventSupported, Graves, MarkDeleted;
    DeletionParts(c, source, now);
    DeletionIds(c, source, now);
    MarkKeepsFacts(c, d, source);
    forall id ensures HeadSupported(d, id) {
      assert HeadSupported(c, id);
      if id in Affected(c, source) {
        RecomputedIsSupported(c, source, now, c.heads.events[id]);
      } else if id in c.heads.events {
        MarkKeepsSupported(c.facts, source, c.heads.events[id]);
      }
    }
  }

  lemma MarkKeepsSupported(facts: Facts, source: Id, e: Event)
    requires EventSupported(facts, e) && source in facts.sources
    ensures EventSupported(MarkDeleted(facts, source), e)
  {
    forall ev | ev in e.evidence ensures EntrySound(MarkDeleted(facts, source), e.space, ev) { assert EntrySound(facts, e.space, ev); }
  }

  lemma MarkKeepsFacts(c: Core, d: Core, source: Id)
    requires FactsOk(c) && source in c.facts.sources && d.facts == MarkDeleted(c.facts, source) && d.nextId >= c.nextId
    ensures FactsOk(d)
  {
  }

  lemma DeletionIds(c: Core, source: Id, now: int)
    requires source in c.facts.sources
    ensures Deletion(c, source, now).nextId == c.nextId
  {
  }

  lemma RebuildKeepsSupported(c: Core)
    requires Grounded(c) && Supported(c)
    ensures Supported(Rebuild(c))
  {
    hide Rebuild, HeadsOf, LogOk, DaysOk, IndexOf, KeysOf, FreshBut, EvidenceSound, FactsOk;
    RebuildParts(c);
    RebuiltHeads(c);
    var d := Rebuild(c);
    FactsStay(c, d);
    forall id ensures HeadSupported(d, id) {
      assert HeadSupported(c, id);
      if id in c.heads.events {
        BuriedIsSupported(c, c.heads.events[id]);
      }
    }
  }

  lemma FactsStay(c: Core, d: Core)
    requires FactsOk(c) && d.facts == c.facts && d.nextId == c.nextId
    ensures FactsOk(d)
  {
  }

  lemma BuriedIsSupported(c: Core, e: Event)
    requires EventSupported(c.facts, e)
    ensures EventSupported(c.facts, BuriedEvent(c.log, e))
  {
  }

  lemma StepKeepsSupported(c: Core, command: Command)
    requires Grounded(c) && Supported(c)
    ensures Supported(Step(c, command))
  {
    hide Grounded, AppendRevision, Rebuild, Deletion, Supported, EvidenceAccepted, SourcesOf;
    if Execute(c, command).Done? {
      match command
      case Capture(owner, space) => GrowthByCapture(c, owner, space);
      case Observe(o) => GrowthByObservation(c, o);
      case Accept(e, now) => AddKeepsSupported(c, e, now);
      case Append(id, base, changes, evidence, now) => AppendKeepsSupported(c, id, base, changes, evidence, now);
      case Conflict(id, competing, now) =>
        AppendKeepsSupported(c, id, c.heads.events[id].revision, NoChanges.(fact := Some(ConflictFact), state := Some(InConflict)), None, now);
      case Undo(id, base, restore, now) =>
        var target := c.log.events[Version(id, restore)];
        AppendKeepsSupported(c, id, base,
          Changes(Some(target.title), Some(target.description), Some(target.fact), Some(target.state), Some(target.range), None),
          Some(target.evidence), now);
      case Group(e, now) => SideKeepsSupported(c, Step(c, command));
      case Cover(key, state, reasons) => SideKeepsSupported(c, Step(c, command));
      case ReadDay(key) => SideKeepsSupported(c, Step(c, command));
      case Delete(source, now) => DeletionKeepsSupported(c, source, now);
      case RebuildAll => RebuildKeepsSupported(c);
    }
  }

  lemma GrowthByCapture(c: Core, owner: string, space: string)
    requires Supported(c)
    ensures Supported(CaptureSource(c, owner, space))
  {
    CaptureGrows(c, owner, space);
    GrowthKeepsSupported(c, CaptureSource(c, owner, space));
  }

  lemma GrowthByObservation(c: Core, o: Observation)
    requires Supported(c) && CreateObservation(c, o).Done?
    ensures Supported(CreateObservation(c, o).core)
  {
    ObserveGrows(c, o);
    GrowthKeepsSupported(c, CreateObservation(c, o).core);
  }

  lemma {:induction false} RunKeepsSupported(commands: seq<Command>)
    ensures Supported(Run(commands))
  {
    if commands != [] {
      var n := |commands| - 1;
      RunKeepsSupported(commands[..n]);
      RunKeepsGrounded(commands[..n]);
      StepKeepsSupported(Run(commands[..n]), commands[n]);
    }
  }

  /** After any run, a source can be deleted exactly when it exists, is not deleted yet, and every live event that cites
      it cites, besides it, only sources that are not deleted. */
  lemma DeletableExactly(commands: seq<Command>, source: Id, now: int)
    ensures var c := Run(commands);
      DeleteSource(c, source, now).Done? <==>
        && source in c.facts.sources && !c.facts.sources[source].deleted
        && (forall id :: id in c.heads.events && c.heads.events[id].Live() && Cites(c.facts.observations, c.heads.events[id], source) ==>
              OthersLeft(c.facts, source, c.heads.events[id]))
  {
    var c := Run(commands);
    RunKeepsSupported(commands);
    DeletionSucceedsExactly(c, source, now);
    hide Run, Supported, DeleteSource, OthersLeft, Cites;
    assert forall id :: id in Affected(c, source) <==>
      id in c.heads.events && c.heads.events[id].Live() && Cites(c.facts.observations, c.heads.events[id], source);
  }
}
