/** What a completed deletion leaves of its source. The job lists the active objects only, so an object already staged for
    expiry is left to the purge. */
module VaultSources {
  import opened Json
  import opened VaultModel
  import opened VaultSafety

  // ---- every run ----

  /** Objects belong to known sources, and only the deletion of its source stages an object as deleted by the user. */
  ghost predicate OwnerOk(s: Store, id: Id) {
    id in s.raw.manifests ==>
      var m := s.raw.manifests[id];
      m.source in s.raw.sources && (m.pending == Some(UserDeleted) ==> s.raw.sources[m.source])
  }

  /** The object is out of reach of new deletions: already erased, or staged for expiry. */
  predicate ExpiredOrErased(m: Manifest) {
    m.state == Erased || (m.state == DeletePending && m.pending == Some(Expired))
  }

  /** A job covers its source: what is not on its list was erased or staged for expiry. */
  ghost predicate Covers(s: Store, j: Id, id: Id) {
    j in s.jobs ==>
      && s.jobs[j].source in s.raw.sources && s.raw.sources[s.jobs[j].source]
      && (id in s.raw.manifests && s.raw.manifests[id].source == s.jobs[j].source ==>
            id in s.jobs[j].raws || ExpiredOrErased(s.raw.manifests[id]))
  }

  ghost predicate SourcesOk(s: Store) {
    && (forall source :: source in s.raw.sources ==> source < s.nextId)
    && (forall id :: OwnerOk(s, id))
    && (forall j, id :: Covers(s, j, id))
  }

  /** Objects and sources only move on, and a deleted source gets no new object. */
  ghost predicate SourcesMove(s: Store, t: Store) {
    && t.nextId >= s.nextId
    && (forall source :: source in s.raw.sources ==> source in t.raw.sources && (s.raw.sources[source] ==> t.raw.sources[source]))
    && (forall source :: source in t.raw.sources ==> source < t.nextId)
    && forall id :: id in t.raw.manifests ==> ObjectMoves(s, t, id)
  }

  ghost predicate ObjectMoves(s: Store, t: Store, id: Id)
    requires id in t.raw.manifests
  {
    var m := t.raw.manifests[id];
    if id in s.raw.manifests then
      && m.source == s.raw.manifests[id].source
      && (ExpiredOrErased(s.raw.manifests[id]) ==> ExpiredOrErased(m))
      && (m.pending == Some(UserDeleted) ==> s.raw.manifests[id].pending == Some(UserDeleted) || (m.source in t.raw.sources && t.raw.sources[m.source]))
    else
      m.source in s.raw.sources && !s.raw.sources[m.source] && m.pending == None
  }

  lemma SameObjectsMove(s: Store, t: Store)
    requires SourcesOk(s) && t.raw.manifests == s.raw.manifests && t.raw.sources == s.raw.sources && t.nextId >= s.nextId
    ensures SourcesMove(s, t)
  {
    assert forall source :: source in t.raw.sources ==> source in s.raw.sources && source < s.nextId;
    forall id | id in t.raw.manifests ensures ObjectMoves(s, t, id) { assert OwnerOk(s, id); }
  }

  lemma StoringMoves(s: Store, n: NewRaw, now: int, cut: Cut)
    requires RawOk(s) && SourcesOk(s)
    ensures SourcesMove(s, StoreRaw(s, n, now, cut))
  {
    assert ManifestOk(s, s.nextId);
    hide Used, RawOk;
    var t := StoreRaw(s, n, now, cut);
    forall id | id in t.raw.manifests ensures ObjectMoves(s, t, id) { assert OwnerOk(s, id); }
  }

  lemma StagingMoves(s: Store, at: int)
    requires RawOk(s) && SourcesOk(s)
    ensures SourcesMove(s, StagePurge(s, at))
  {
    var t := StagePurge(s, at);
    forall id | id in t.raw.manifests ensures ObjectMoves(s, t, id) { assert ManifestOk(s, id); }
  }

  lemma DeletingMoves(s: Store, source: Id, replicas: set<string>, now: int)
    requires RawOk(s) && SourcesOk(s)
    ensures SourcesMove(s, DeleteSource(s, source, replicas, now))
  {
    if !DeleteRefused(s, source) {
      var t := DeleteSource(s, source, replicas, now);
      forall id | id in t.raw.manifests ensures ObjectMoves(s, t, id) { assert ManifestOk(s, id); }
    }
  }

  lemma FinalizingMoves(s: Store, id: Id, unlink: Unlink)
    requires SourcesOk(s)
    ensures SourcesMove(s, FinalizeRaw(s, id, unlink))
  {
  }

  lemma ActMoves(s: Store, action: Action)
    requires RawOk(s) && SourcesOk(s)
    ensures SourcesMove(s, Act(s, action))
  {
    hide RawOk, SourcesOk, SourcesMove, Used;
    var t := Act(s, action);
    match action
    case AddSource => AddingMoves(s);
    case StoreOne(n, now, cut) => StoringMoves(s, n, now, cut);
    case DeleteOne(source, replicas, now) => DeletingMoves(s, source, replicas, now);
    case Purge(at) => StagingMoves(s, at);
    case Finalize(id, unlink) => FinalizingMoves(s, id, unlink);
    case LookForMissing =>
      NothingIsMissing(s);
      SameObjectsMove(s, t);
    case _ => SameObjectsMove(s, t);
  }

  lemma AddingMoves(s: Store)
    requires SourcesOk(s)
    ensures SourcesMove(s, Act(s, AddSource))
  {
  }

  lemma NewJobCovers(s: Store, source: Id, replicas: set<string>, now: int, id: Id)
    requires RawOk(s) && SourcesOk(s) && !DeleteRefused(s, source)
    ensures Covers(DeleteSource(s, source, replicas, now), s.nextId, id)
  {
    assert ManifestOk(s, id) && OwnerOk(s, id);
    var t := DeleteSource(s, source, replicas, now);
    assert t.jobs[s.nextId].source == source && t.jobs[s.nextId].raws == RawsOf(s.raw, source);
    assert t.raw.sources[source];
    if id in s.raw.manifests && id !in RawsOf(s.raw, source) {
      var m := s.raw.manifests[id];
      assert t.raw.manifests[id] == m;
      assert m.pending.Some? ==> m.pending.value.UserDeleted? || m.pending.value.Expired?;
    }
  }

  lemma OldJobCovers(s: Store, t: Store, j: Id, id: Id)
    requires SourcesOk(s) && SourcesMove(s, t) && JobAdvances(s, t, j) && j in s.jobs
    ensures Covers(t, j, id)
  {
    assert Covers(s, j, id);
    assert id in t.raw.manifests ==> ObjectMoves(s, t, id);
  }

  lemma OwnersMove(s: Store, t: Store)
    requires SourcesOk(s) && SourcesMove(s, t)
    ensures forall id :: OwnerOk(t, id)
    ensures forall source :: source in t.raw.sources ==> source < t.nextId
  {
    forall id ensures OwnerOk(t, id) {
      assert OwnerOk(s, id);
      assert id in t.raw.manifests ==> ObjectMoves(s, t, id);
    }
  }

  lemma NoNewJob(s: Store, action: Action, j: Id)
    requires j !in s.jobs && !(action.DeleteOne? && !DeleteRefused(s, action.source) && j == s.nextId)
    ensures j !in Act(s, action).jobs
  {
  }

  lemma NoJobCovers(s: Store, j: Id, id: Id)
    requires j !in s.jobs
    ensures Covers(s, j, id)
  {
  }

  lemma StepKeepsSources(s: Store, action: Action)
    requires Sound(s) && SourcesOk(s)
    ensures SourcesOk(Act(s, action))
  {
    hide RawOk, JobsOk, SourcesMove, JobAdvances, Covers, OwnerOk;
    var t := Act(s, action);
    ActMoves(s, action);
    OwnersMove(s, t);
    forall j, id ensures Covers(t, j, id) {
      if j in s.jobs {
        StepAdvancesJob(s, action, j);
        OldJobCovers(s, t, j, id);
      } else if action.DeleteOne? && !DeleteRefused(s, action.source) && j == s.nextId {
        NewJobCovers(s, action.source, action.replicas, action.now, id);
      } else {
        NoNewJob(s, action, j);
        NoJobCovers(t, j, id);
      }
    }
  }

  lemma {:induction false} RunKeepsSources(quota: nat, actions: seq<Action>)
    requires PossibleRun(quota, actions)
    ensures SourcesOk(Run(quota, actions))
  {
    if actions != [] {
      var n := |actions| - 1;
      PrefixIsPossible(quota, actions, n);
      RunKeepsSources(quota, actions[..n]);
      RunKeepsSound(quota, actions[..n]);
      StepKeepsSources(Run(quota, actions[..n]), actions[n]);
    }
  }

  /** After any run, whatever was cut short: of the source of a completed deletion only the files of objects are left that
      were staged for expiry and are not on the job's list. */
  lemma DeletedSourcesKeepOnlyExpired(quota: nat, actions: seq<Action>, j: Id, id: Id)
    requires PossibleRun(quota, actions)
    requires var s := Run(quota, actions);
      && j in s.jobs && s.jobs[j].state == JobCompleted
      && id in s.raw.manifests && s.raw.manifests[id].source == s.jobs[j].source && id in s.raw.files
    ensures var s := Run(quota, actions);
      s.raw.manifests[id].state == DeletePending && s.raw.manifests[id].pending == Some(Expired) && id !in s.jobs[j].raws
  {
    var s := Run(quota, actions);
    ProofsAreTrue(quota, actions, j);
    RunKeepsSound(quota, actions);
    RunKeepsSources(quota, actions);
    assert Covers(s, j, id) && ManifestOk(s, id);
    hide Run;
    assert id in s.jobs[j].raws ==> CleanedUp(s.raw, id);
  }

  // ---- which files exactly ----

  predicate Unlinks(action: Action, id: Id) {
    action.Finalize? && action.id == id && action.unlink != BeforeUnlink
  }

  predicate Unlinked(actions: seq<Action>, id: Id) {
    exists action :: action in actions && Unlinks(action, id)
  }

  predicate PendingOrErased(raw: Raw, id: Id) {
    id in raw.manifests && raw.manifests[id].state in {DeletePending, Erased}
  }

  /** A staged object keeps its file until it is unlinked. */
  lemma StepKeepsStaged(s: Store, action: Action, id: Id)
    requires RawOk(s) && SourcesOk(s) && PendingOrErased(s.raw, id)
    ensures var t := Act(s, action);
      && PendingOrErased(t.raw, id) && t.raw.manifests[id].source == s.raw.manifests[id].source
      && (id in t.raw.files <==> id in s.raw.files && !Unlinks(action, id))
  {
    assert ManifestOk(s, id);
    ActMoves(s, action);
    assert id in Act(s, action).raw.manifests ==> ObjectMoves(s, Act(s, action), id);
    hide RawOk, SourcesOk, SourcesMove, StoreRefused, NewJob, RelinkAll, ReleaseAll, Rechecked, Acknowledged, FailedEntry;
    if action.LookForMissing? { NothingIsMissing(s); }
  }

  lemma {:induction false} StagedFiles(quota: nat, before: seq<Action>, after: seq<Action>, id: Id)
    requires PossibleRun(quota, before + after) && PendingOrErased(Run(quota, before).raw, id)
    ensures var s, t := Run(quota, before), Run(quota, before + after);
      && PendingOrErased(t.raw, id) && t.raw.manifests[id].source == s.raw.manifests[id].source
      && (id in t.raw.files <==> id in s.raw.files && !Unlinked(after, id))
    decreases after
  {
    hide Run, Act, PossibleRun, PendingOrErased, RawOk, JobsOk, SourcesOk;
    if after == [] {
      assert before + after == before;
    } else {
      var rest, last := after[..|after| - 1], after[|after| - 1];
      assert before + after == (before + rest) + [last] && after == rest + [last];
      assert (before + after)[..|before + rest|] == before + rest;
      PrefixIsPossible(quota, before + after, |before + rest|);
      StagedFiles(quota, before, rest, id);
      RunKeepsSound(quota, before + rest);
      RunKeepsSources(quota, before + rest);
      RunLast(quota, before + after);
      StepKeepsStaged(Run(quota, before + rest), last, id);
    }
  }

  predicate DeletedSource(s: Store, source: Id) {
    source in s.raw.sources && s.raw.sources[source]
  }

  lemma StepKeepsClosed(s: Store, action: Action, source: Id, id: Id)
    requires RawOk(s) && SourcesOk(s) && DeletedSource(s, source)
    ensures var t := Act(s, action);
      && DeletedSource(t, source)
      && (id in t.raw.manifests && t.raw.manifests[id].source == source ==> id in s.raw.manifests && s.raw.manifests[id].source == source)
  {
    ActMoves(s, action);
    hide RawOk, SourcesOk, Act;
    assert id in Act(s, action).raw.manifests ==> ObjectMoves(s, Act(s, action), id);
  }

  /** A deleted source stays deleted and gets no object any more. */
  lemma {:induction false} ClosedStays(quota: nat, before: seq<Action>, after: seq<Action>, source: Id, id: Id)
    requires PossibleRun(quota, before + after) && DeletedSource(Run(quota, before), source)
    ensures var s, t := Run(quota, before), Run(quota, before + after);
      && DeletedSource(t, source)
      && (id in t.raw.manifests && t.raw.manifests[id].source == source ==> id in s.raw.manifests && s.raw.manifests[id].source == source)
    decreases after
  {
    hide Run, Act, PossibleRun, RawOk, JobsOk, SourcesOk, DeletedSource;
    if after == [] {
      assert before + after == before;
    } else {
      var rest, last := after[..|after| - 1], after[|after| - 1];
      assert before + after == (before + rest) + [last];
      assert (before + after)[..|before + rest|] == before + rest;
      PrefixIsPossible(quota, before + after, |before + rest|);
      ClosedStays(quota, before, rest, source, id);
      RunKeepsSound(quota, before + rest);
      RunKeepsSources(quota, before + rest);
      RunLast(quota, before + after);
      StepKeepsClosed(Run(quota, before + rest), last, source, id);
    }
  }

  /** An object that a deletion finds staged for expiry, its file still there. */
  predicate AwaitsPurge(raw: Raw, source: Id, id: Id) {
    id in raw.manifests && raw.manifests[id].source == source && raw.manifests[id].state == DeletePending && id in raw.files
  }

  /** The step of a deletion: the active objects are on the job's list, and the others are left as they are. */
  lemma DeletionStep(s: Store, source: Id, replicas: set<string>, now: int, id: Id)
    requires RawOk(s) && !DeleteRefused(s, source)
    ensures var t := DeleteSource(s, source, replicas, now);
      && DeletedSource(t, source) && s.nextId in t.jobs && t.jobs[s.nextId].source == source
      && t.raw.files == s.raw.files
      && (id in t.raw.manifests && t.raw.manifests[id].source == source ==>
            && id in s.raw.manifests && s.raw.manifests[id].source == source
            && PendingOrErased(t.raw, id)
            && (id in t.jobs[s.nextId].raws <==> !PendingOrErased(s.raw, id)))
      && (PendingOrErased(s.raw, id) ==> id in t.raw.manifests && t.raw.manifests[id] == s.raw.manifests[id])
  {
    assert ManifestOk(s, id);
  }

  /** Once the deletion of a source is completed, in every run: an object of the source still has its file exactly when
      it had it, staged for expiry, at the time of the deletion, and no step since has unlinked it. */
  lemma {:induction false} DeletionLeavesExactly(quota: nat, before: seq<Action>, source: Id, replicas: set<string>, now: int,
                                                 after: seq<Action>, id: Id)
    requires PossibleRun(quota, before + [DeleteOne(source, replicas, now)] + after)
    requires !DeleteRefused(Run(quota, before), source)
    requires var s, j := Run(quota, before + [DeleteOne(source, replicas, now)] + after), Run(quota, before).nextId;
      j in s.jobs && s.jobs[j].state == JobCompleted
    ensures var s := Run(quota, before + [DeleteOne(source, replicas, now)] + after);
      id in s.raw.manifests && s.raw.manifests[id].source == source && id in s.raw.files <==>
        AwaitsPurge(Run(quota, before).raw, source, id) && !Unlinked(after, id)
  {
    hide Run, Act, PossibleRun, RawOk, JobsOk, SourcesOk, DeletedSource, DeleteSource, DeleteRefused, Unlinked, CleanedUp;
    var deleting := before + [DeleteOne(source, replicas, now)];
    var all := deleting + after;
    var j := Run(quota, before).nextId;
    var s, t, u := Run(quota, before), Run(quota, deleting), Run(quota, all);
    assert deleting[..|before|] == before && all[..|deleting|] == deleting && all[..|before|] == before;
    PrefixIsPossible(quota, all, |before|);
    PrefixIsPossible(quota, all, |deleting|);
    RunKeepsSound(quota, before);
    RunLast(quota, deleting);
    assert t == DeleteSource(s, source, replicas, now) by { ActDeletes(s, source, replicas, now); }
    DeletionStep(s, source, replicas, now, id);
    JobsAdvance(quota, deleting, after, j);
    ClosedStays(quota, deleting, after, source, id);
    if PendingOrErased(t.raw, id) {
      StagedFiles(quota, deleting, after, id);
    }
    ProofsAreTrue(quota, all, j);
    assert id in u.jobs[j].raws ==> CleanedUp(u.raw, id);
    NoFileLeft(u.raw, id);
    RunKeepsRaw(quota, before);
    ErasedHasNoFile(s, id);
  }

  lemma ActDeletes(s: Store, source: Id, replicas: set<string>, now: int)
    ensures Act(s, DeleteOne(source, replicas, now)) == DeleteSource(s, source, replicas, now)
  {
  }

  lemma NoFileLeft(raw: Raw, id: Id)
    ensures CleanedUp(raw, id) ==> id !in raw.files
  {
  }

  lemma ErasedHasNoFile(s: Store, id: Id)
    requires RawOk(s)
    ensures id in s.raw.manifests && s.raw.manifests[id].state == Erased ==> id !in s.raw.files
  {
    assert ManifestOk(s, id);
  }

  /** So no file of the source is left exactly when the purge has unlinked all that awaited it. */
  lemma {:induction false} NothingIsLeftExactly(quota: nat, before: seq<Action>, source: Id, replicas: set<string>, now: int, after: seq<Action>)
    requires PossibleRun(quota, before + [DeleteOne(source, replicas, now)] + after)
    requires !DeleteRefused(Run(quota, before), source)
    requires var s, j := Run(quota, before + [DeleteOne(source, replicas, now)] + after), Run(quota, before).nextId;
      j in s.jobs && s.jobs[j].state == JobCompleted
    ensures var raw := Run(quota, before + [DeleteOne(source, replicas, now)] + after).raw;
      (forall id :: id in raw.manifests && raw.manifests[id].source == source ==> id !in raw.files) <==>
      (forall id :: AwaitsPurge(Run(quota, before).raw, source, id) ==> Unlinked(after, id))
  {
    hide Run, PossibleRun, AwaitsPurge, Unlinked, DeleteRefused;
    var raw := Run(quota, before + [DeleteOne(source, replicas, now)] + after).raw;
    forall id
      ensures id in raw.manifests && raw.manifests[id].source == source && id in raw.files <==>
        AwaitsPurge(Run(quota, before).raw, source, id) && !Unlinked(after, id)
    {
      DeletionLeavesExactly(quota, before, source, replicas, now, after, id);
    }
  }
}
