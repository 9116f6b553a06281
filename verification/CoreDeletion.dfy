/** Source deletion on runs without revivals: it always succeeds, and does to each event what CoreCascade says. */
module CoreDeletion {
  import opened Json
  import opened CoreModel
  import opened CoreLedger
  import opened CoreRebuild
  import opened CoreCascade
  import opened CoreSupport

  ghost predicate OneSource(facts: Facts, e: Event) {
    exists s :: SourcesOf(facts.observations, e.evidence) <= {s}
  }

  /** A live event cites a deleted source only if it cites no other. */
  ghost predicate Untainted(facts: Facts, e: Event) {
    e.Live() ==> AllSourcesLeft(facts, e) || OneSource(facts, e)
  }

  ghost predicate HeadUntainted(c: Core, id: Id) {
    id in c.heads.events ==> Untainted(c.facts, c.heads.events[id])
  }

  ghost predicate Sound(c: Core) {
    Supported(c) && forall id :: HeadUntainted(c, id)
  }

  /** On a sound store a source can be deleted exactly when it exists and is not deleted yet. */
  lemma DeletionSucceeds(c: Core, source: Id, now: int)
    requires Sound(c)
    ensures DeleteSource(c, source, now).Done? <==> source in c.facts.sources && !c.facts.sources[source].deleted
  {
    DeletionSucceedsExactly(c, source, now);
    hide Supported, DeleteSource;
    if source in c.facts.sources && !c.facts.sources[source].deleted {
      forall id | id in Affected(c, source) ensures OthersLeft(c.facts, source, c.heads.events[id]) {
        assert HeadUntainted(c, id);
      }
    }
  }

  // ---- soundness is kept ----

  /** A revision that carries its old evidence makes a deleted event live again. */
  predicate Revives(c: Core, command: Command) {
    match command
    case Append(id, _, changes, evidence, now) =>
      evidence.None? && id in c.heads.events && !c.heads.events[id].Live() && AppendedEvent(c, id, changes, evidence, now).Live()
    case Conflict(id, _, _) => id in c.heads.events && !c.heads.events[id].Live()
    case _ => false
  }

  lemma SameEvidence(f: Facts, g: Facts, e: Event, after: Event)
    requires SourcesOf(g.observations, after.evidence) == SourcesOf(f.observations, e.evidence)
    requires forall s :: s in f.sources && !f.sources[s].deleted ==> s in g.sources && !g.sources[s].deleted
    requires Untainted(f, e) && (after.Live() ==> e.Live())
    ensures Untainted(g, after)
  {
    if e.Live() && OneSource(f, e) {
      var s :| SourcesOf(f.observations, e.evidence) <= {s};
      assert SourcesOf(g.observations, after.evidence) <= {s};
    }
  }

  lemma GrowthKeepsUntainted(c: Core, d: Core, id: Id)
    requires Sound(c) && FactsGrow(c.facts, d.facts) && d.heads.events == c.heads.events
    ensures HeadUntainted(d, id)
  {
    assert HeadUntainted(c, id) && HeadSupported(c, id);
    if id in c.heads.events {
      SourcesUnderGrowth(c.facts, d.facts, c.heads.events[id]);
      SameEvidence(c.facts, d.facts, c.heads.events[id], c.heads.events[id]);
    }
  }

  lemma AppendKeepsUntainted(c: Core, at: Id, base: nat, changes: Changes, evidence: Option<seq<Evidence>>, now: int, id: Id)
    requires Grounded(c) && Sound(c) && AppendRevision(c, at, base, changes, evidence, now).Done?
    requires evidence.None? && at in c.heads.events && !c.heads.events[at].Live() ==> !AppendedEvent(c, at, changes, evidence, now).Live()
    ensures HeadUntainted(AppendRevision(c, at, base, changes, evidence, now).core, id)
  {
    assert HeadUntainted(c, id);
    AppendParts(c, at, base, changes, evidence, now);
    var e := AppendedEvent(c, at, changes, evidence, now);
    if id == at {
      if evidence.Some? {
        AcceptedIsSound(c, e);
      } else {
        SameEvidence(c.facts, c.facts, c.heads.events[at], e);
      }
    }
  }

  /** An affected event that is still live afterwards cites no deleted source, or only the one that went. */
  lemma RecomputedIsUntainted(c: Core, source: Id, now: int, id: Id)
    requires Supported(c) && id in Affected(c, source) && source in c.facts.sources
    requires !DeletionBlocked(MarkDeleted(c.facts, source), source, c.heads.events[id])
    ensures Untainted(MarkDeleted(c.facts, source), Recomputed(c.facts.observations, source, c.heads.events[id], now))
  {
    var before, facts := c.heads.events[id], MarkDeleted(c.facts, source);
    var e := Recomputed(c.facts.observations, source, before, now);
    AfterSources(c.facts.observations, source, before.evidence);
    if Wiped(c.facts.observations, source, before) {
      assert SourcesOf(facts.observations, e.evidence) <= {source};
    } else {
      AcceptedIsSound(c.(facts := facts), e);
    }
  }

  lemma UnaffectedIsUntainted(c: Core, source: Id, id: Id)
    requires HeadUntainted(c, id) && id in c.heads.events && id !in Affected(c, source) && source in c.facts.sources
    ensures Untainted(MarkDeleted(c.facts, source), c.heads.events[id])
  {
    var e, facts := c.heads.events[id], MarkDeleted(c.facts, source);
    if e.Live() && OneSource(c.facts, e) {
      var s :| SourcesOf(c.facts.observations, e.evidence) <= {s};
      assert SourcesOf(facts.observations, e.evidence) <= {s};
    }
  }

  lemma DeletionKeepsSound(c: Core, source: Id, now: int)
    requires Sound(c) && DeleteSource(c, source, now).Done?
    ensures Sound(Deletion(c, source, now))
  {
    var d := Deletion(c, source, now);
    DeletionKeepsSupported(c, source, now);
    DeletionParts(c, source, now);
    hide Deletion, Recomputed, Supported, Untainted, MarkDeleted, DeletionBlocked;
    forall id ensures HeadUntainted(d, id) {
      assert HeadUntainted(c, id);
      if id in Affected(c, source) {
        RecomputedIsUntainted(c, source, now, id);
      } else if id in c.heads.events {
        UnaffectedIsUntainted(c, source, id);
      }
    }
  }

  lemma RebuildKeepsUntainted(c: Core, id: Id)
    requires Grounded(c) && Sound(c)
    ensures HeadUntainted(Rebuild(c), id)
  {
    assert HeadUntainted(c, id);
    hide Supported, Untainted, Rebuild, HeadsOf, LogOk, DaysOk, IndexOf, KeysOf, FreshBut;
    RebuildParts(c);
    RebuiltHeads(c);
    if id in c.heads.events {
      BuriedIsUntainted(c, c.heads.events[id]);
    }
  }

  lemma BuriedIsUntainted(c: Core, e: Event)
    requires Untainted(c.facts, e)
    ensures Untainted(c.facts, BuriedEvent(c.log, e))
  {
    SameEvidence(c.facts, c.facts, e, BuriedEvent(c.log, e));
  }

  lemma AddKeepsUntainted(c: Core, n: NewEvent, now: int, id: Id)
    requires Sound(c) && AcceptEvent(c, n, now).Done?
    ensures HeadUntainted(AcceptEvent(c, n, now).core, id)
  {
    assert HeadUntainted(c, id);
    AddParts(c, n, now);
    AcceptedIsSound(c, FirstEvent(c, n, now));
    hide AcceptEvent, Supported;
  }

  lemma ConflictKeepsUntainted(c: Core, at: Id, competing: nat, now: int, id: Id)
    requires Grounded(c) && Sound(c) && RecordConflict(c, at, competing, now).Done? && (at in c.heads.events ==> c.heads.events[at].Live())
    ensures HeadUntainted(RecordConflict(c, at, competing, now).core, id)
  {
    hide Grounded, AppendRevision, Sound;
    AppendKeepsUntainted(c, at, c.heads.events[at].revision, NoChanges.(fact := Some(ConflictFact), state := Some(InConflict)), None, now, id);
  }

  lemma UndoKeepsUntainted(c: Core, at: Id, base: nat, restore: nat, now: int, id: Id)
    requires Grounded(c) && Sound(c) && UndoEvent(c, at, base, restore, now).Done?
    ensures HeadUntainted(UndoEvent(c, at, base, restore, now).core, id)
  {
    hide Grounded, AppendRevision, Sound, EvidenceAccepted, SourcesOf;
    var target := c.log.events[Version(at, restore)];
    AppendKeepsUntainted(c, at, base,
      Changes(Some(target.title), Some(target.description), Some(target.fact), Some(target.state), Some(target.range), None),
      Some(target.evidence), now, id);
  }

  lemma StepKeepsUntainted(c: Core, command: Command, id: Id)
    requires Grounded(c) && Sound(c) && !Revives(c, command) && Execute(c, command).Done? && !command.Delete?
    ensures HeadUntainted(Step(c, command), id)
  {
    hide Grounded, AppendRevision, RecordConflict, UndoEvent, Rebuild, Sound, EvidenceAccepted, SourcesOf, HeadUntainted;
    match command
    case Capture(owner, space) =>
      CaptureKeepsUntainted(c, owner, space, id);
    case Observe(o) =>
      ObserveKeepsUntainted(c, o, id);
    case Accept(e, now) => AddKeepsUntainted(c, e, now, id);
    case Append(at, base, changes, evidence, now) => AppendKeepsUntainted(c, at, base, changes, evidence, now, id);
    case Conflict(at, competing, now) => ConflictKeepsUntainted(c, at, competing, now, id);
    case Undo(at, base, restore, now) => UndoKeepsUntainted(c, at, base, restore, now, id);
    case RebuildAll => RebuildKeepsUntainted(c, id);
    case Group(e, now) => SideKeepsUntainted(c, Step(c, command), id);
    case Cover(key, state, reasons) => SideKeepsUntainted(c, Step(c, command), id);
    case ReadDay(key) => SideKeepsUntainted(c, Step(c, command), id);
    case Delete(_, _) => assert false;
  }

  lemma SideKeepsUntainted(c: Core, d: Core, id: Id)
    requires Sound(c) && d.facts == c.facts && d.heads.events == c.heads.events
    ensures HeadUntainted(d, id)
  {
    assert HeadUntainted(c, id);
  }

  lemma CaptureKeepsUntainted(c: Core, owner: string, space: string, id: Id)
    requires Sound(c)
    ensures HeadUntainted(CaptureSource(c, owner, space), id)
  {
    CaptureGrows(c, owner, space);
    GrowthKeepsUntainted(c, CaptureSource(c, owner, space), id);
  }

  lemma ObserveKeepsUntainted(c: Core, o: Observation, id: Id)
    requires Sound(c) && CreateObservation(c, o).Done?
    ensures HeadUntainted(CreateObservation(c, o).core, id)
  {
    ObserveGrows(c, o);
    GrowthKeepsUntainted(c, CreateObservation(c, o).core, id);
  }

  lemma StepKeepsSound(c: Core, command: Command)
    requires Grounded(c) && Sound(c) && !Revives(c, command)
    ensures Sound(Step(c, command))
  {
    if Execute(c, command).Done? {
      StepKeepsSupported(c, command);
      if command.Delete? {
        DeletionKeepsSound(c, command.source, command.now);
      } else {
        hide Grounded, Supported, Step, Execute, Revives, HeadUntainted;
        forall id ensures HeadUntainted(Step(c, command), id) {
          StepKeepsUntainted(c, command, id);
        }
      }
    }
  }

  /** No command of the run makes a deleted event live again on its old evidence. */
  ghost predicate NoRevivals(commands: seq<Command>) {
    forall i :: 0 <= i < |commands| ==> !Revives(Run(commands[..i]), commands[i])
  }

  lemma {:induction false} RunKeepsSound(commands: seq<Command>)
    requires NoRevivals(commands)
    ensures Sound(Run(commands))
  {
    if commands != [] {
      var n := |commands| - 1;
      assert NoRevivals(commands[..n]) by {
        forall i | 0 <= i < n ensures !Revives(Run(commands[..n][..i]), commands[..n][i]) {
          assert commands[..n][..i] == commands[..i];
        }
      }
      RunKeepsSound(commands[..n]);
      RunKeepsGrounded(commands[..n]);
      assert !Revives(Run(commands[..n]), commands[n]);
      StepKeepsSound(Run(commands[..n]), commands[n]);
    }
  }

  /** On runs without revivals every source can be deleted once (CoreSupport.DeletableExactly says when it can on others). */
  lemma {:induction false} SourcesStayDeletable(commands: seq<Command>, source: Id, now: int)
    requires NoRevivals(commands)
    ensures var c := Run(commands);
      DeleteSource(c, source, now).Done? <==> source in c.facts.sources && !c.facts.sources[source].deleted
  {
    RunKeepsSound(commands);
    DeletionSucceeds(Run(commands), source, now);
  }

  // ---- several deletions ----

  function DeleteAll(c: Core, removals: seq<Removal>): Outcome {
    if removals == [] then Done(c)
    else
      match DeleteAll(c, removals[..|removals| - 1])
      case Refused => Refused
      case Done(d) => DeleteSource(d, removals[|removals| - 1].source, removals[|removals| - 1].now)
  }

  /** Each source exists, is not deleted yet, and is listed once. */
  ghost predicate CanDelete(c: Core, removals: seq<Removal>) {
    && (forall r :: r in removals ==> r.source in c.facts.sources && !c.facts.sources[r.source].deleted)
    && (forall i, j :: 0 <= i < j < |removals| ==> removals[i].source != removals[j].source)
  }

  ghost predicate FlagsAfter(f: Facts, g: Facts, removals: seq<Removal>) {
    && g.observations == f.observations && g.sources.Keys == f.sources.Keys
    && (forall s :: s in f.sources ==> g.sources[s].deleted == (f.sources[s].deleted || s in SourcesIn(removals)))
  }

  ghost predicate HeadsAfter(c: Core, d: Core, removals: seq<Removal>) {
    && d.heads.events.Keys == c.heads.events.Keys
    && (forall id :: id in c.heads.events ==> d.heads.events[id] == RemoveAllFrom(c.facts.observations, removals, c.heads.events[id]))
  }

  /** What a list of deletions has done so far. */
  ghost predicate DeletedSoFar(c: Core, d: Core, removals: seq<Removal>) {
    Sound(d) && FlagsAfter(c.facts, d.facts, removals) && HeadsAfter(c, d, removals)
  }

  lemma FlagsStep(f: Facts, g: Facts, removals: seq<Removal>)
    requires removals != [] && FlagsAfter(f, g, removals[..|removals| - 1]) && removals[|removals| - 1].source in g.sources
    ensures FlagsAfter(f, MarkDeleted(g, removals[|removals| - 1].source), removals)
  {
    SourcesInStep(removals);
    hide SourcesIn;
  }

  lemma HeadsStep(c: Core, d: Core, e: Core, removals: seq<Removal>)
    requires removals != [] && HeadsAfter(c, d, removals[..|removals| - 1]) && e.heads.events.Keys == d.heads.events.Keys
    requires forall id :: id in d.heads.events ==>
      e.heads.events[id] == RemoveFrom(c.facts.observations, removals[|removals| - 1], d.heads.events[id])
    ensures HeadsAfter(c, e, removals)
  {
    hide RemoveFrom, RemoveAllFrom;
    forall id | id in c.heads.events ensures e.heads.events[id] == RemoveAllFrom(c.facts.observations, removals, c.heads.events[id]) {
      RemoveAllStep(c.facts.observations, removals, c.heads.events[id]);
    }
  }

  lemma OneMoreDeletion(c: Core, d: Core, removals: seq<Removal>)
    requires removals != [] && CanDelete(c, removals) && DeletedSoFar(c, d, removals[..|removals| - 1])
    ensures var last := removals[|removals| - 1];
      DeleteSource(d, last.source, last.now).Done? && DeletedSoFar(c, DeleteSource(d, last.source, last.now).core, removals)
  {
    var n := |removals| - 1;
    var last := removals[n];
    assert last in removals && last.source !in SourcesIn(removals[..n]);
    assert last.source in d.facts.sources && !d.facts.sources[last.source].deleted;
    assert d.facts.observations == c.facts.observations;
    FlagsStep(c.facts, d.facts, removals);
    hide Sound, SourcesIn, Deletion, RemoveFrom, DeletionRefused, FlagsAfter, HeadsAfter, MarkDeleted;
    DeletionSucceeds(d, last.source, last.now);
    DeletionKeepsSound(d, last.source, last.now);
    OneDeletion(d, last);
    HeadsStep(c, d, Deletion(d, last.source, last.now), removals);
  }

  lemma RemoveAllStep(seen: Observations, removals: seq<Removal>, e: Event)
    requires removals != []
    ensures RemoveAllFrom(seen, removals, e) ==
            RemoveFrom(seen, removals[|removals| - 1], RemoveAllFrom(seen, removals[..|removals| - 1], e))
  {
  }

  lemma OneDeletion(c: Core, removal: Removal)
    requires removal.source in c.facts.sources
    ensures var d := Deletion(c, removal.source, removal.now);
      && d.facts == MarkDeleted(c.facts, removal.source) && d.heads.events.Keys == c.heads.events.Keys
      && (forall id :: id in c.heads.events ==> d.heads.events[id] == RemoveFrom(c.facts.observations, removal, c.heads.events[id]))
  {
    hide Recomputed, Deletion, Graves, Cites;
    DeletionParts(c, removal.source, removal.now);
    assert Deletion(c, removal.source, removal.now).heads.events.Keys == c.heads.events.Keys;
  }

  /** Sources can be deleted in any order: every deletion succeeds, and every event becomes what CoreCascade says. */
  lemma {:induction false} DeletionsCascade(c: Core, removals: seq<Removal>)
    requires Sound(c) && CanDelete(c, removals)
    ensures DeleteAll(c, removals).Done? && DeletedSoFar(c, DeleteAll(c, removals).core, removals)
  {
    if removals != [] {
      var n := |removals| - 1;
      assert CanDelete(c, removals[..n]);
      DeletionsCascade(c, removals[..n]);
      OneMoreDeletion(c, DeleteAll(c, removals[..n]).core, removals);
    }
  }

  /** In full, on reachable stores: after deleting the sources, an event that was live, without conflict and with
      evidence is live exactly when some of its evidence came from other sources, and then cites none of the deleted
      ones. */
  lemma DeletedSourcesAreForgotten(commands: seq<Command>, removals: seq<Removal>, id: Id)
    requires NoRevivals(commands) && CanDelete(Run(commands), removals)
    requires id in Run(commands).heads.events
    requires Deletable(Run(commands).facts.observations, Run(commands).heads.events[id])
    ensures var c, d := Run(commands), DeleteAll(Run(commands), removals);
      && d.Done? && id in d.core.heads.events
      && (d.core.heads.events[id].Live() <==>
            exists s :: s in SourcesOf(c.facts.observations, c.heads.events[id].evidence) - SourcesIn(removals))
      && (d.core.heads.events[id].Live() ==>
            SourcesOf(c.facts.observations, d.core.heads.events[id].evidence) !! SourcesIn(removals))
  {
    var c := Run(commands);
    var seen, e := c.facts.observations, c.heads.events[id];
    RunKeepsSound(commands);
    DeletionsCascade(c, removals);
    hide Sound, RemoveAllFrom, FirstTouch, SourcesIn, SourcesOf, IsRecomputed, Deletable;
    LiveIffEvidenceIsLeft(seen, removals, e);
    if RemoveAllFrom(seen, removals, e).Live() {
      if FirstTouch(seen, removals, e).Some? {
        SurvivorsAreKept(seen, removals, e);
      } else {
        FirstTouchIsCited(seen, removals, e);
        Cascade(seen, removals, e);
      }
    }
  }

  /** Whatever the order, the same events are live with the same observations (see OrdersAgree). */
  lemma DeletionOrderAgrees(c: Core, one: seq<Removal>, other: seq<Removal>, id: Id)
    requires Sound(c) && CanDelete(c, one) && CanDelete(c, other) && SourcesIn(one) == SourcesIn(other)
    requires id in c.heads.events && Deletable(c.facts.observations, c.heads.events[id])
    ensures DeleteAll(c, one).Done? && id in DeleteAll(c, one).core.heads.events
    ensures DeleteAll(c, other).Done? && id in DeleteAll(c, other).core.heads.events
    ensures OrdersAgree(DeleteAll(c, one).core.heads.events[id], DeleteAll(c, other).core.heads.events[id])
  {
    DeletionsCascade(c, one);
    DeletionsCascade(c, other);
    hide Sound, DeleteAll, RemoveAllFrom, SourcesIn, OrdersAgree, Deletable;
    OrderMattersOnlyToConfidence(c.facts.observations, one, other, c.heads.events[id]);
  }
}
