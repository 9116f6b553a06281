/** Crash safety of raw objects and of deletion proofs: what every durable step keeps, whatever steps a crash drops. */
module VaultSafety {
  import opened Json
  import opened VaultModel

  // ---- raw objects ----

  ghost predicate ManifestOk(s: Store, id: Id) {
    id in s.raw.manifests ==>
      var m := s.raw.manifests[id];
      && id < s.nextId
      && m.state != Missing
      && (m.state == Ready ==> m.deletion == ActiveCopy && m.pending == None && id in s.raw.files)
      && (m.state == DeletePending ==> m.deletion == PendingDeletion && m.pending.Some?)
      && (m.state == Erased ==> m.deletion.Gone? && m.pending == None && id !in s.raw.files)
  }

  ghost predicate RawOk(s: Store) {
    (forall id :: ManifestOk(s, id)) && Used(s.raw) <= s.raw.quota
  }

  // ---- sums ----

  lemma {:induction false} TotalSplit(manifests: map<Id, Manifest>, ids: set<Id>, id: Id)
    requires ids <= manifests.Keys && id in ids
    ensures Total(manifests, ids) == manifests[id].size + Total(manifests, ids - {id})
    decreases ids
  {
    var first := Pick(ids);
    if first != id {
      TotalSplit(manifests, ids - {first}, id);
      TotalSplit(manifests, ids - {id}, first);
      assert ids - {first} - {id} == ids - {id} - {first};
    }
  }

  lemma {:induction false} TotalAgrees(a: map<Id, Manifest>, b: map<Id, Manifest>, ids: set<Id>)
    requires ids <= a.Keys && ids <= b.Keys && forall id :: id in ids ==> a[id].size == b[id].size
    ensures Total(a, ids) == Total(b, ids)
    decreases ids
  {
    if ids != {} {
      var id := Pick(ids);
      TotalAgrees(a, b, ids - {id});
    }
  }

  lemma {:induction false} TotalMonotone(manifests: map<Id, Manifest>, few: set<Id>, many: set<Id>)
    requires few <= many <= manifests.Keys
    ensures Total(manifests, few) <= Total(manifests, many)
    decreases many
  {
    if few != many {
      var extra := many - few;
      assert forall x :: x in many ==> x in few || x in extra;
      assert extra == {} ==> few == many;
      var id := Pick(extra);
      TotalSplit(manifests, many, id);
      TotalMonotone(manifests, few, many - {id});
    }
  }

  /** Manifests that change state but not size, and count no more than before. */
  lemma UsedShrinks(a: Raw, b: Raw)
    requires a.manifests.Keys == b.manifests.Keys
    requires forall id :: id in a.manifests ==> b.manifests[id].size == a.manifests[id].size && (Counted(b.manifests[id]) ==> Counted(a.manifests[id]))
    ensures Used(b) <= Used(a)
  {
    TotalAgrees(a.manifests, b.manifests, CountedIds(b.manifests));
    TotalMonotone(a.manifests, CountedIds(b.manifests), CountedIds(a.manifests));
  }

  lemma UsedGrows(a: Raw, b: Raw, id: Id, m: Manifest)
    requires id !in a.manifests && b.manifests == a.manifests[id := m] && Counted(m)
    ensures Used(b) == Used(a) + m.size
  {
    assert CountedIds(b.manifests) - {id} == CountedIds(a.manifests);
    TotalSplit(b.manifests, CountedIds(b.manifests), id);
    TotalAgrees(a.manifests, b.manifests, CountedIds(a.manifests));
  }

  // ---- each step ----

  lemma StoreKeepsRaw(s: Store, n: NewRaw, now: int, cut: Cut)
    requires RawOk(s)
    ensures RawOk(StoreRaw(s, n, now, cut))
  {
    var t := StoreRaw(s, n, now, cut);
    assert ManifestOk(s, s.nextId);
    if !StoreRefused(s, n, now) && cut == NoCut {
      UsedGrows(s.raw, t.raw, s.nextId, NewManifest(n));
    } else {
      assert t.raw.manifests == s.raw.manifests;
    }
    forall id ensures ManifestOk(t, id) { assert ManifestOk(s, id); }
  }

  lemma StagingKeepsRaw(s: Store, t: Store, ids: set<Id>, final: Final)
    requires RawOk(s) && ids <= s.raw.manifests.Keys
    requires t.raw.manifests == StageAll(s.raw.manifests, ids, final) && t.raw.files == s.raw.files && t.raw.quota == s.raw.quota
    requires t.nextId >= s.nextId
    ensures RawOk(t)
  {
    forall id ensures ManifestOk(t, id) { assert ManifestOk(s, id); }
    forall id | id in s.raw.manifests
      ensures t.raw.manifests[id].size == s.raw.manifests[id].size && (Counted(t.raw.manifests[id]) ==> Counted(s.raw.manifests[id]))
    {
      assert ManifestOk(s, id);
    }
    UsedShrinks(s.raw, t.raw);
  }

  lemma FinalizeKeepsRaw(s: Store, id: Id, unlink: Unlink)
    requires RawOk(s)
    ensures RawOk(FinalizeRaw(s, id, unlink))
  {
    var t := FinalizeRaw(s, id, unlink);
    forall x ensures ManifestOk(t, x) { assert ManifestOk(s, x); }
    if Finalizable(s, id) && unlink == Finished {
      UsedShrinks(s.raw, t.raw);
    } else {
      assert t.raw.manifests == s.raw.manifests;
    }
  }

  lemma SweepKeepsRaw(s: Store)
    requires RawOk(s)
    ensures RawOk(Sweep(s))
  {
    forall id ensures ManifestOk(Sweep(s), id) { assert ManifestOk(s, id); }
  }

  /** Nothing is ever lost: a ready manifest has its file, so none is marked missing. */
  lemma NothingIsMissing(s: Store)
    requires RawOk(s)
    ensures MarkMissing(s) == s
  {
    forall id | id in s.raw.manifests ensures MissingMarked(s.raw, id) == s.raw.manifests[id] { assert ManifestOk(s, id); }
    assert MarkMissing(s).raw.manifests == s.raw.manifests;
  }

  lemma QueueApart(s: Store, t: Store)
    requires RawOk(s) && t.raw == s.raw && t.nextId >= s.nextId
    ensures RawOk(t)
  {
    forall id ensures ManifestOk(t, id) { assert ManifestOk(s, id); }
  }

  lemma SourcesApart(s: Store, t: Store)
    requires RawOk(s) && t.raw == s.raw.(sources := t.raw.sources) && t.nextId >= s.nextId
    ensures RawOk(t)
  {
    forall id ensures ManifestOk(t, id) { assert ManifestOk(s, id); }
  }

  lemma StepKeepsRaw(s: Store, action: Action)
    requires RawOk(s)
    ensures RawOk(Act(s, action))
  {
    var t := Act(s, action);
    hide RawOk;
    match action
    case AddSource => SourcesApart(s, t);
    case StoreOne(n, now, cut) => StoreKeepsRaw(s, n, now, cut);
    case DeleteOne(source, replicas, now) =>
      if DeleteRefused(s, source) {
        QueueApart(s, t);
      } else {
        StagingKeepsRaw(s, t, RawsOf(s.raw, source), UserDeleted);
      }
    case Purge(at) => StagingKeepsRaw(s, t, PurgeIds(s.raw, at), Expired);
    case Finalize(id, unlink) => FinalizeKeepsRaw(s, id, unlink);
    case SweepFiles => SweepKeepsRaw(s);
    case LookForMissing => NothingIsMissing(s);
    case _ => QueueApart(s, t);
  }

  lemma {:induction false} RunKeepsRaw(quota: nat, actions: seq<Action>)
    ensures RawOk(Run(quota, actions)) && Run(quota, actions).raw.quota == quota
  {
    if actions == [] {
      assert CountedIds(Start(quota).raw.manifests) == {};
    } else {
      RunKeepsRaw(quota, actions[..|actions| - 1]);
      StepKeepsRaw(Run(quota, actions[..|actions| - 1]), actions[|actions| - 1]);
    }
  }

  /** After any run, however it was cut short: a ready object has its file, a deleted one has none, none is missing, and
      the bytes counted stay within the quota. */
  lemma VaultIsCrashSafe(quota: nat, actions: seq<Action>, id: Id)
    ensures var raw := Run(quota, actions).raw;
      && Used(raw) <= quota
      && (id in raw.manifests ==>
            && raw.manifests[id].state != Missing
            && (raw.manifests[id].state == Ready ==> id in raw.files)
            && (raw.manifests[id].state == Erased ==> id !in raw.files))
  {
    RunKeepsRaw(quota, actions);
    assert ManifestOk(Run(quota, actions), id);
  }

  /** Opening the store after any run: the files left are those of ready and delete-pending objects and nothing else, no
      temporary file is left, and every ready object still has its file. */
  lemma {:induction false} RecoveryLeavesReferencedFiles(quota: nat, actions: seq<Action>)
    ensures var s := Sweep(Run(quota, actions));
      && s.raw.temps == 0
      && (forall id :: id in s.raw.files ==> id in s.raw.manifests && s.raw.manifests[id].state in {Ready, DeletePending})
      && (forall id :: id in s.raw.manifests && s.raw.manifests[id].state == Ready ==> id in s.raw.files)
      && MarkMissing(s) == s
  {
    var r := Run(quota, actions);
    RunKeepsRaw(quota, actions);
    SweepKeepsRaw(r);
    NothingIsMissing(Sweep(r));
    forall id | id in Sweep(r).raw.manifests && Sweep(r).raw.manifests[id].state == Ready ensures id in Sweep(r).raw.files {
      assert ManifestOk(Sweep(r), id);
    }
  }

  // ---- deletion jobs ----

  ghost predicate JobOk(s: Store, j: Id) {
    j in s.jobs ==>
      var job := s.jobs[j];
      && j < s.nextId && job.raws <= s.raw.manifests.Keys
      && (forall r :: r in job.raws ==> s.raw.manifests[r].state in {DeletePending, Erased})
      && job.pendingRaws <= job.raws && (forall r :: r in job.raws - job.pendingRaws ==> s.raw.manifests[r].state == Erased)
      && (job.cleanup <==> job.pendingRaws == {})
      && job.failedRaws <= job.pendingRaws
      && job.pendingReplicas !! job.ackedReplicas
      && job.state == StateOf(job.cleanup, job.pendingReplicas) && (job.proof <==> job.state == JobCompleted)
  }

  /** A linked entry belongs to a job, and is completed exactly when the job is. */
  ghost predicate EntryOk(s: Store, q: Id) {
    q in s.queue ==>
      && q < s.nextId
      && (s.queue[q].key.Linked? ==>
            && s.queue[q].key.deletion in s.jobs
            && s.queue[q].order == Order(Delete, Some(s.queue[q].key.deletion), 100, 10, s.queue[q].order.available)
            && (s.queue[q].state == QueueCompleted <==> s.jobs[s.queue[q].key.deletion].state == JobCompleted))
  }

  ghost predicate HasEntry(s: Store, j: Id) {
    j in s.jobs ==> exists q :: q in s.queue && s.queue[q].key == Linked(j)
  }

  ghost predicate JobsOk(s: Store) {
    && (forall j :: JobOk(s, j))
    && (forall q :: EntryOk(s, q))
    && (forall j :: HasEntry(s, j))
  }

  ghost predicate Sound(s: Store) {
    RawOk(s) && JobsOk(s)
  }

  /** Manifests only move on: pending to erased, never back. */
  ghost predicate RawsAdvance(s: Store, t: Store) {
    && t.nextId >= s.nextId
    && forall r :: r in s.raw.manifests ==>
         && r in t.raw.manifests
         && (s.raw.manifests[r].state == Erased ==> t.raw.manifests[r].state == Erased)
         && (s.raw.manifests[r].state == DeletePending ==> t.raw.manifests[r].state in {DeletePending, Erased})
  }

  lemma RawStepKeepsJobs(s: Store, t: Store)
    requires JobsOk(s) && RawsAdvance(s, t) && t.jobs == s.jobs && t.queue == s.queue
    ensures JobsOk(t)
  {
    forall j ensures JobOk(t, j) { assert JobOk(s, j); }
    forall q ensures EntryOk(t, q) { assert EntryOk(s, q); }
    forall j ensures HasEntry(t, j) { assert HasEntry(s, j); }
  }

  lemma UpdateKeepsJobs(s: Store, j: Id, job: DeletionJob, now: int)
    requires JobsOk(s) && j in s.jobs && JobOk(s.(jobs := s.jobs[j := job]), j)
    requires s.jobs[j].state == JobCompleted ==> job.state == JobCompleted
    ensures JobsOk(UpdateJob(s, j, job, now))
  {
    var t := UpdateJob(s, j, job, now);
    forall x ensures JobOk(t, x) { assert JobOk(s, x) && JobOk(s.(jobs := s.jobs[j := job]), j); }
    forall q ensures EntryOk(t, q) { assert EntryOk(s, q); }
    forall x ensures HasEntry(t, x) {
      assert HasEntry(s, x);
      if x in s.jobs {
        var q :| q in s.queue && s.queue[q].key == Linked(x);
        assert q in t.queue && t.queue[q].key == Linked(x);
      }
    }
  }

  lemma RecheckedOk(s: Store, j: Id, failed: set<Id>)
    requires Sound(s) && j in s.jobs
    ensures JobOk(s.(jobs := s.jobs[j := Rechecked(s.raw, s.jobs[j], failed)]), j)
    ensures s.jobs[j].state == JobCompleted ==> Rechecked(s.raw, s.jobs[j], failed).state == JobCompleted
  {
    assert JobOk(s, j);
    var job := s.jobs[j];
    forall r | r in job.raws ensures CleanedUp(s.raw, r) <==> s.raw.manifests[r].state == Erased { assert ManifestOk(s, r); }
  }

  lemma ReconcileKeepsJobs(s: Store, j: Id, failed: set<Id>, now: int)
    requires Sound(s)
    ensures JobsOk(Reconcile(s, j, failed, now))
  {
    if j in s.jobs {
      RecheckedOk(s, j, failed);
      UpdateKeepsJobs(s, j, Rechecked(s.raw, s.jobs[j], failed), now);
    }
  }

  lemma AckKeepsJobs(s: Store, j: Id, replica: string, now: int)
    requires JobsOk(s)
    ensures JobsOk(Acknowledge(s, j, replica, now))
  {
    if !AckRefused(s, j, replica) {
      assert JobOk(s, j);
      UpdateKeepsJobs(s, j, Acknowledged(s.jobs[j], replica), now);
    }
  }

  lemma DeleteKeepsJobs(s: Store, source: Id, replicas: set<string>, now: int)
    requires Sound(s)
    ensures JobsOk(DeleteSource(s, source, replicas, now))
  {
    if !DeleteRefused(s, source) {
      var t := DeleteSource(s, source, replicas, now);
      forall j ensures JobOk(t, j) {
        assert JobOk(s, j);
      }
      forall q ensures EntryOk(t, q) { assert EntryOk(s, q) && EntryOk(s, s.nextId + 1) && JobOk(s, s.nextId); }
      forall j ensures HasEntry(t, j) {
        assert HasEntry(s, j);
        if j == s.nextId {
          assert t.queue[s.nextId + 1].key == Linked(j);
        } else if j in s.jobs {
          var q :| q in s.queue && s.queue[q].key == Linked(j);
          assert EntryOk(s, q);
          assert q in t.queue && t.queue[q].key == Linked(j);
        }
      }
    }
  }

  /** Queue steps on entries that stay what they are, except that a linked entry is never completed here. */
  lemma QueueStepKeepsJobs(s: Store, t: Store)
    requires JobsOk(s) && t.raw == s.raw && t.jobs == s.jobs && t.nextId >= s.nextId
    requires forall q :: q in s.queue ==> q in t.queue && t.queue[q].key == s.queue[q].key && t.queue[q].order == s.queue[q].order
    requires forall q :: q in s.queue && s.queue[q].key.Linked? ==> (t.queue[q].state == QueueCompleted <==> s.queue[q].state == QueueCompleted)
    requires forall q :: q in t.queue && q !in s.queue ==> q < t.nextId && t.queue[q].key.Given?
    ensures JobsOk(t)
  {
    forall j ensures JobOk(t, j) { assert JobOk(s, j); }
    forall q ensures EntryOk(t, q) { assert EntryOk(s, q); }
    forall j ensures HasEntry(t, j) {
      assert HasEntry(s, j);
      if j in s.jobs {
        var q :| q in s.queue && s.queue[q].key == Linked(j);
        assert q in t.queue && t.queue[q].key == Linked(j);
      }
    }
  }

  lemma LeaseKeepsJobs(s: Store, worker: string, seconds: int, kinds: set<QueueType>, now: int, next: Option<Id>)
    requires JobsOk(s) && Possible(s, LeaseOne(worker, seconds, kinds, now, next))
    ensures JobsOk(Lease(s, worker, seconds, kinds, now, next))
  {
    var t := Lease(s, worker, seconds, kinds, now, next);
    QueueStepKeepsJobs(s, t);
  }

  lemma CompleteKeepsJobs(s: Store, id: Id, worker: string, now: int)
    requires JobsOk(s)
    ensures JobsOk(CompleteJob(s, id, worker, now))
  {
    var t := CompleteJob(s, id, worker, now);
    assert EntryOk(s, id);
    QueueStepKeepsJobs(s, t);
  }

  lemma FailKeepsJobs(s: Store, id: Id, worker: string, errorCode: string, base: int, cap: int, now: int)
    requires JobsOk(s)
    ensures JobsOk(FailJob(s, id, worker, errorCode, base, cap, now))
  {
    QueueStepKeepsJobs(s, FailJob(s, id, worker, errorCode, base, cap, now));
  }

  lemma EnqueueKeepsJobs(s: Store, key: string, order: Order, now: int)
    requires JobsOk(s)
    ensures JobsOk(Enqueue(s, key, order, now))
  {
    assert EntryOk(s, s.nextId);
    QueueStepKeepsJobs(s, Enqueue(s, key, order, now));
  }

  lemma RawActionAdvances(s: Store, action: Action)
    requires RawOk(s)
    requires action.AddSource? || action.StoreOne? || action.Purge? || action.Finalize? || action.SweepFiles? || action.LookForMissing?
    ensures var t := Act(s, action); RawsAdvance(s, t) && t.jobs == s.jobs && t.queue == s.queue
  {
    var t := Act(s, action);
    if action.LookForMissing? {
      NothingIsMissing(s);
    }
    forall r | r in s.raw.manifests
      ensures && r in t.raw.manifests
              && (s.raw.manifests[r].state == Erased ==> t.raw.manifests[r].state == Erased)
              && (s.raw.manifests[r].state == DeletePending ==> t.raw.manifests[r].state in {DeletePending, Erased})
    {
      assert ManifestOk(s, r);
    }
  }

  lemma StepKeepsSound(s: Store, action: Action)
    requires Sound(s) && Possible(s, action)
    ensures Sound(Act(s, action))
  {
    StepKeepsRaw(s, action);
    hide RawOk, JobsOk;
    match action
    case DeleteOne(source, replicas, now) => DeleteKeepsJobs(s, source, replicas, now);
    case Check(job, failed, now) => ReconcileKeepsJobs(s, job, failed, now);
    case Ack(job, replica, now) => AckKeepsJobs(s, job, replica, now);
    case EnqueueOne(key, order, now) => EnqueueKeepsJobs(s, key, order, now);
    case LeaseOne(worker, seconds, kinds, now, next) => LeaseKeepsJobs(s, worker, seconds, kinds, now, next);
    case CompleteOne(id, worker, now) => CompleteKeepsJobs(s, id, worker, now);
    case FailOne(id, worker, errorCode, base, cap, now) => FailKeepsJobs(s, id, worker, errorCode, base, cap, now);
    case _ =>
      RawActionAdvances(s, action);
      RawStepKeepsJobs(s, Act(s, action));
  }

  lemma PrefixIsPossible(quota: nat, actions: seq<Action>, n: nat)
    requires PossibleRun(quota, actions) && n <= |actions|
    ensures PossibleRun(quota, actions[..n])
  {
    var prefix := actions[..n];
    forall i | 0 <= i < n ensures Possible(Run(quota, prefix[..i]), prefix[i]) {
      assert prefix[..i] == actions[..i];
    }
  }

  lemma {:induction false} RunKeepsSound(quota: nat, actions: seq<Action>)
    requires PossibleRun(quota, actions)
    ensures Sound(Run(quota, actions))
  {
    RunKeepsRaw(quota, actions);
    if actions != [] {
      var n := |actions| - 1;
      PrefixIsPossible(quota, actions, n);
      RunKeepsSound(quota, actions[..n]);
      assert Possible(Run(quota, actions[..n]), actions[n]);
      StepKeepsSound(Run(quota, actions[..n]), actions[n]);
    }
  }

  // ---- proofs of deletion ----

  /** Everything a completed deletion promises of its job is so: every object on its list is deleted with no file, and
      every replica has acknowledged. */
  predicate Kept(s: Store, job: DeletionJob) {
    (forall r :: r in job.raws ==> CleanedUp(s.raw, r)) && job.pendingReplicas == {}
  }

  /** A completed deletion is kept, in every reachable state; its queue entry is completed at the same time. */
  lemma {:induction false} ProofsAreTrue(quota: nat, actions: seq<Action>, j: Id)
    requires PossibleRun(quota, actions) && j in Run(quota, actions).jobs
    ensures var s := Run(quota, actions);
      && (s.jobs[j].state == JobCompleted ==> Kept(s, s.jobs[j]))
      && (s.jobs[j].proof <==> s.jobs[j].state == JobCompleted)
      && (exists q :: q in s.queue && s.queue[q].key == Linked(j))
      && (forall q :: q in s.queue && s.queue[q].key == Linked(j) ==> (s.queue[q].state == QueueCompleted <==> s.jobs[j].state == JobCompleted))
  {
    var s := Run(quota, actions);
    RunKeepsSound(quota, actions);
    assert JobOk(s, j) && HasEntry(s, j);
    forall r | r in s.jobs[j].raws && s.jobs[j].state == JobCompleted ensures CleanedUp(s.raw, r) {
      assert ManifestOk(s, r) && r in s.jobs[j].raws - s.jobs[j].pendingRaws;
    }
    forall q | q in s.queue && s.queue[q].key == Linked(j) ensures s.queue[q].state == QueueCompleted <==> s.jobs[j].state == JobCompleted {
      assert EntryOk(s, q);
    }
  }

  /** And once the job has been checked again, as every deletion, retry and opening of the store does, it is completed
      exactly when the deletion is kept. */
  lemma {:induction false} CheckedProofsAreExact(quota: nat, actions: seq<Action>, j: Id, failed: set<Id>, now: int)
    requires PossibleRun(quota, actions) && j in Run(quota, actions).jobs
    ensures var s := Reconcile(Run(quota, actions), j, failed, now);
      && s.raw == Run(quota, actions).raw
      && (s.jobs[j].state == JobCompleted <==> Kept(s, s.jobs[j]))
  {
    var r := Run(quota, actions);
    var s := Reconcile(r, j, failed, now);
    RunKeepsSound(quota, actions);
    assert JobOk(r, j);
    hide CleanedUp, Run;
    assert forall x :: x in s.jobs[j].raws && !CleanedUp(s.raw, x) ==> x in s.jobs[j].pendingRaws;
  }

  /** Between checks the job's own list of objects still pending makes the difference. */
  lemma {:induction false} CompletedExactly(quota: nat, actions: seq<Action>, j: Id)
    requires PossibleRun(quota, actions) && j in Run(quota, actions).jobs
    ensures var s := Run(quota, actions);
      s.jobs[j].state == JobCompleted <==> Kept(s, s.jobs[j]) && s.jobs[j].pendingRaws == {}
  {
    ProofsAreTrue(quota, actions, j);
    RunKeepsSound(quota, actions);
    assert JobOk(Run(quota, actions), j);
  }

  /** And it does: finalising the last object keeps the deletion without completing it, until the job is checked. */
  lemma CompletionLags(s: Store, j: Id, r: Id)
    requires Sound(s) && j in s.jobs && s.jobs[j].pendingReplicas == {} && s.jobs[j].pendingRaws == {r} && Finalizable(s, r)
    ensures var t := FinalizeRaw(s, r, Finished);
      Kept(t, t.jobs[j]) && t.jobs[j].state == PartialFailed
  {
    assert JobOk(s, j);
    var t := FinalizeRaw(s, r, Finished);
    forall x | x in s.jobs[j].raws ensures CleanedUp(t.raw, x) {
      assert ManifestOk(s, x);
      assert x != r ==> x in s.jobs[j].raws - s.jobs[j].pendingRaws;
    }
  }

  /** What never changes about a job: its objects and the replicas it needs; and completion is for good. */
  ghost predicate JobAdvances(s: Store, t: Store, j: Id) {
    j in s.jobs ==>
      && j in t.jobs && t.jobs[j].source == s.jobs[j].source && t.jobs[j].raws == s.jobs[j].raws
      && t.jobs[j].pendingReplicas + t.jobs[j].ackedReplicas == s.jobs[j].pendingReplicas + s.jobs[j].ackedReplicas
      && s.jobs[j].ackedReplicas <= t.jobs[j].ackedReplicas
      && (s.jobs[j].state == JobCompleted ==> t.jobs[j].state == JobCompleted)
  }

  lemma StepAdvancesJob(s: Store, action: Action, j: Id)
    requires Sound(s)
    ensures JobAdvances(s, Act(s, action), j)
  {
    assert JobOk(s, j);
    match action
    case Check(job, failed, now) => if job in s.jobs { RecheckedOk(s, job, failed); }
    case _ =>
  }

  /** Over any stretch of a run. */
  lemma {:induction false} JobsAdvance(quota: nat, before: seq<Action>, after: seq<Action>, j: Id)
    requires PossibleRun(quota, before + after)
    ensures JobAdvances(Run(quota, before), Run(quota, before + after), j)
    decreases after
  {
    hide *;
    if after == [] {
      assert before + after == before;
      SameAdvances(Run(quota, before), j);
    } else {
      var all, rest, last := before + after, after[..|after| - 1], after[|after| - 1];
      assert all[..|all| - 1] == before + rest && all[|all| - 1] == last;
      PrefixIsPossible(quota, all, |all| - 1);
      JobsAdvance(quota, before, rest, j);
      RunKeepsSound(quota, before + rest);
      RunLast(quota, all);
      StepAdvancesJob(Run(quota, before + rest), last, j);
      AdvancesCompose(Run(quota, before), Run(quota, before + rest), Run(quota, all), j);
    }
  }

  lemma RunLast(quota: nat, actions: seq<Action>)
    requires actions != []
    ensures Run(quota, actions) == Act(Run(quota, actions[..|actions| - 1]), actions[|actions| - 1])
  {
  }

  lemma AdvancesCompose(s: Store, t: Store, u: Store, j: Id)
    requires JobAdvances(s, t, j) && JobAdvances(t, u, j)
    ensures JobAdvances(s, u, j)
  {
  }

  lemma SameAdvances(s: Store, j: Id)
    ensures JobAdvances(s, s, j)
  {
  }

  /** A completed deletion stays completed and kept, whatever happens next. */
  lemma {:induction false} CompletionIsFinal(quota: nat, actions: seq<Action>, i: nat, j: Id)
    requires PossibleRun(quota, actions) && i <= |actions|
    requires j in Run(quota, actions[..i]).jobs && Run(quota, actions[..i]).jobs[j].state == JobCompleted
    ensures var s := Run(quota, actions); j in s.jobs && s.jobs[j].state == JobCompleted && Kept(s, s.jobs[j])
  {
    assert actions == actions[..i] + actions[i..];
    JobsAdvance(quota, actions[..i], actions[i..], j);
    ProofsAreTrue(quota, actions, j);
  }
}
