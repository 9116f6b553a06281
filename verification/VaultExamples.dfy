/** Runs that reach the states in which deletion jobs and their queue entries do not keep their promises. */
module VaultExamples {
  import opened Json
  import opened VaultModel
  import opened VaultSafety
  import opened VaultQueue

  lemma RunOneMore(quota: nat, actions: seq<Action>, last: Action)
    ensures Run(quota, actions + [last]) == Act(Run(quota, actions), last)
  {
    assert (actions + [last])[..|actions|] == actions;
  }

  lemma PossibleOneMore(quota: nat, actions: seq<Action>, last: Action)
    requires PossibleRun(quota, actions) && Possible(Run(quota, actions), last)
    ensures PossibleRun(quota, actions + [last])
  {
    var all := actions + [last];
    forall i | 0 <= i < |all| ensures Possible(Run(quota, all[..i]), all[i]) {
      assert all[..i] == actions[..i];
      assert actions[..|actions|] == actions;
    }
  }

  lemma NoLeases(quota: nat, actions: seq<Action>)
    requires forall i :: 0 <= i < |actions| ==> !actions[i].LeaseOne?
    ensures PossibleRun(quota, actions)
  {
  }

  // ---- a completed deletion that is not marked so ----

  const OBJECT := NewRaw(1, 1, UserRetained, None)

  /** A source with one object is deleted, and the object is finalised by somebody else than its job. */
  function Lagging(): seq<Action> {
    [AddSource] + [StoreOne(OBJECT, 0, NoCut)] + [DeleteOne(1, {}, 0)] + [Finalize(2, Finished)]
  }

  lemma ObjectIsStored(quota: nat)
    requires quota >= 17
    ensures var s := Run(quota, [AddSource] + [StoreOne(OBJECT, 0, NoCut)]);
      && s.raw.manifests == map[2 := NewManifest(OBJECT)] && s.raw.sources == map[1 := false] && s.nextId == 3
      && s.jobs == map[] && s.queue == map[]
  {
    RunOneMore(quota, [], AddSource);
    assert [] + [AddSource] == [AddSource];
    RunOneMore(quota, [AddSource], StoreOne(OBJECT, 0, NoCut));
    var s := Run(quota, [AddSource]);
    assert CountedIds(s.raw.manifests) == {};
  }

  lemma ObjectIsStaged(quota: nat)
    requires quota >= 17
    ensures var s := Run(quota, [AddSource] + [StoreOne(OBJECT, 0, NoCut)] + [DeleteOne(1, {}, 0)]);
      && s.jobs.Keys == {3} && s.jobs[3].pendingReplicas == {} && s.jobs[3].pendingRaws == {2} && Finalizable(s, 2)
  {
    var before := [AddSource] + [StoreOne(OBJECT, 0, NoCut)];
    ObjectIsStored(quota);
    RunOneMore(quota, before, DeleteOne(1, {}, 0));
    var s := Run(quota, before);
    assert RawsOf(s.raw, 1) == {2};
    hide Run;
  }

  /** The deletion is kept, and its job does not say so. */
  lemma CompletionCanLag(quota: nat)
    requires quota >= 17
    ensures var s := Run(quota, Lagging()); 3 in s.jobs && Kept(s, s.jobs[3]) && s.jobs[3].state == PartialFailed
  {
    var before := [AddSource] + [StoreOne(OBJECT, 0, NoCut)] + [DeleteOne(1, {}, 0)];
    ObjectIsStaged(quota);
    NoLeases(quota, before);
    RunKeepsSound(quota, before);
    RunOneMore(quota, before, Finalize(2, Finished));
    CompletionLags(Run(quota, before), 3, 2);
  }

  // ---- a completed deletion with a file left ----

  const EXPIRING := NewRaw(1, 1, EphemeralRecovery, Some(5))

  /** An object is staged for expiry, its purge is cut short, and then its source is deleted. */
  function Leaving(): seq<Action> {
    [AddSource] + [StoreOne(EXPIRING, 0, NoCut)] + [Purge(5)] + [DeleteOne(1, {}, 6)]
  }

  lemma ExpiringIsStored(quota: nat)
    requires quota >= 17
    ensures var s := Run(quota, [AddSource] + [StoreOne(EXPIRING, 0, NoCut)]);
      && s.raw.manifests == map[2 := NewManifest(EXPIRING)] && s.raw.sources == map[1 := false] && s.nextId == 3
      && s.raw.files == {2} && s.jobs == map[]
  {
    RunOneMore(quota, [], AddSource);
    assert [] + [AddSource] == [AddSource];
    RunOneMore(quota, [AddSource], StoreOne(EXPIRING, 0, NoCut));
    var s := Run(quota, [AddSource]);
    assert CountedIds(s.raw.manifests) == {};
  }

  lemma ExpiringIsPurged(s: Store)
    requires s.raw.manifests == map[2 := NewManifest(EXPIRING)]
    ensures StagePurge(s, 5).raw.manifests == map[2 := NewManifest(EXPIRING).(state := DeletePending, deletion := PendingDeletion, pending := Some(Expired))]
  {
    assert PurgeIds(s.raw, 5) == {2};
  }

  lemma NothingToList(s: Store)
    requires s.raw.manifests.Keys == {2} && s.raw.manifests[2].deletion == PendingDeletion && s.raw.sources == map[1 := false]
    ensures var t := DeleteSource(s, 1, {}, 6);
      s.nextId in t.jobs && t.jobs[s.nextId].state == JobCompleted && t.jobs[s.nextId].proof && t.jobs[s.nextId].source == 1
      && t.raw.files == s.raw.files && t.raw.manifests == s.raw.manifests
  {
    assert RawsOf(s.raw, 1) == {};
    assert StageAll(s.raw.manifests, {}, UserDeleted) == s.raw.manifests;
  }

  /** The deletion is completed, with proof, and an object of the source still has its file. */
  lemma CompletionCanLeaveAFile(quota: nat)
    requires quota >= 17
    ensures PossibleRun(quota, Leaving())
    ensures var s := Run(quota, Leaving());
      && 3 in s.jobs && s.jobs[3].source == 1 && s.jobs[3].state == JobCompleted && s.jobs[3].proof
      && 2 in s.raw.manifests && s.raw.manifests[2].source == 1 && 2 in s.raw.files
  {
    var stored := [AddSource] + [StoreOne(EXPIRING, 0, NoCut)];
    hide Run, DeleteSource, StagePurge, PossibleRun;
    NoLeases(quota, Leaving());
    ExpiringIsStored(quota);
    RunOneMore(quota, stored, Purge(5));
    ExpiringIsPurged(Run(quota, stored));
    PurgeParts(Run(quota, stored), 5);
    RunOneMore(quota, stored + [Purge(5)], DeleteOne(1, {}, 6));
    NothingToList(Run(quota, stored + [Purge(5)]));
  }

  lemma PurgeParts(s: Store, at: int)
    ensures var t := StagePurge(s, at);
      t.raw.files == s.raw.files && t.raw.sources == s.raw.sources && t.nextId == s.nextId && t.jobs == s.jobs
  {
  }

  // ---- a queue entry without a bound on its attempts ----

  const TAKE := LeaseOne("worker", 1, {Delete}, 0, Some(3))

  /** A deletion waits for a replica; its entry is leased, and its job checked, over and over. */
  function Rounds(n: nat): seq<Action> {
    if n == 0 then [AddSource] + [DeleteOne(1, {"replica"}, 0)] else Rounds(n - 1) + [TAKE] + [Check(2, {}, 0)]
  }

  function Entry(state: QueueState, attempts: nat): QueueJob {
    QueueJob(Linked(2), Order(Delete, Some(2), 100, 10, Some(0)), 0, 0, state, attempts)
  }

  ghost predicate Waiting(s: Store, state: QueueState, attempts: nat) {
    && s.jobs.Keys == {2} && s.jobs[2].raws == {} && s.jobs[2].pendingReplicas == {"replica"} && s.jobs[2].state == PartialFailed
    && s.queue == map[3 := Entry(state, attempts)]
  }

  lemma FirstRound(quota: nat)
    ensures Waiting(Run(quota, Rounds(0)), Queued, 0) && PossibleRun(quota, Rounds(0)) && LeasesGranted(Rounds(0), 3) == 0
  {
    RunOneMore(quota, [], AddSource);
    assert [] + [AddSource] == [AddSource];
    RunOneMore(quota, [AddSource], DeleteOne(1, {"replica"}, 0));
    var s := Run(quota, [AddSource]);
    assert RawsOf(s.raw, 1) == {};
    NoLeases(quota, Rounds(0));
    GrantedOneMore([], AddSource, 3);
    GrantedOneMore([AddSource], DeleteOne(1, {"replica"}, 0), 3);
  }

  lemma GrantedOneMore(actions: seq<Action>, last: Action, q: Id)
    ensures LeasesGranted(actions + [last], q) == LeasesGranted(actions, q) +
      (if last.LeaseOne? && !LeaseRefused(last.worker, last.seconds, last.kinds) && last.next == Some(q) then 1 else 0)
  {
    assert (actions + [last])[..|actions|] == actions;
  }

  lemma TakenAndChecked(s: Store, n: nat)
    requires Waiting(s, Queued, n)
    ensures Possible(s, TAKE) && Waiting(Act(s, TAKE), Leased("worker", 1), n + 1)
    ensures Waiting(Act(Act(s, TAKE), Check(2, {}, 0)), Queued, n + 1)
  {
    assert ReleaseAll(s.queue, 0) == s.queue;
    assert Act(s, TAKE).queue == map[3 := Entry(Leased("worker", 1), n + 1)];
    var t := Act(Act(s, TAKE), Check(2, {}, 0));
    assert t.queue.Keys == {3};
  }

  lemma OneMoreRound(quota: nat, before: seq<Action>, n: nat)
    requires PossibleRun(quota, before) && LeasesGranted(before, 3) == n && Waiting(Run(quota, before), Queued, n)
    ensures var after := before + [TAKE] + [Check(2, {}, 0)];
      PossibleRun(quota, after) && LeasesGranted(after, 3) == n + 1 && Waiting(Run(quota, after), Queued, n + 1)
  {
    var check := Check(2, {}, 0);
    TakenAndChecked(Run(quota, before), n);
    GrantedOneMore(before, TAKE, 3);
    GrantedOneMore(before + [TAKE], check, 3);
    assert Possible(Run(quota, before + [TAKE]), check);
    hide Run, Act, PossibleRun, Possible, Waiting, LeasesGranted;
    RunOneMore(quota, before, TAKE);
    RunOneMore(quota, before + [TAKE], check);
    PossibleOneMore(quota, before, TAKE);
    PossibleOneMore(quota, before + [TAKE], check);
  }

  /** However large n is: a run grants the entry of one deletion n leases, although ten are its maximum, and still it is
      queued for the next. */
  lemma {:induction false} LeasesAreUnbounded(quota: nat, n: nat)
    ensures PossibleRun(quota, Rounds(n)) && LeasesGranted(Rounds(n), 3) == n
    ensures Waiting(Run(quota, Rounds(n)), Queued, n)
  {
    hide Run, PossibleRun, Waiting, LeasesGranted;
    if n == 0 {
      FirstRound(quota);
    } else {
      LeasesAreUnbounded(quota, n - 1);
      OneMoreRound(quota, Rounds(n - 1), n - 1);
    }
  }
}
