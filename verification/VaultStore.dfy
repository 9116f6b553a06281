/** The store as the program has it: rows and files changed one by one by the operations of Core and its raw vault. */
module VaultStore {
  import opened Json
  import opened VaultModel
  import opened VaultSafety
  import opened VaultQueue

  class DurableStore {
    var manifests: map<Id, Manifest>
    var files: set<Id>
    var temps: nat
    var sources: map<Id, bool>
    const quota: nat
    var jobs: map<Id, DeletionJob>
    var queue: map<Id, QueueJob>
    var nextId: Id

    function Contents(): Store
      reads this
    {
      Store(Raw(manifests, files, temps, sources, quota), jobs, queue, nextId)
    }

    constructor (quota: nat)
      ensures Contents() == Start(quota)
    {
      manifests, files, temps, sources, jobs, queue, nextId := map[], {}, 0, map[], map[], map[], 1;
      this.quota := quota;
    }

    /** raw_vault_usage: the bytes of every object that is ready or pending deletion. */
    method RawVaultUsage() returns (bytes: nat)
      ensures bytes == Used(Contents().raw)
    {
      bytes := 0;
      var rows := CountedIds(manifests);
      var todo := rows;
      while todo != {}
        invariant todo <= rows
        invariant bytes + Total(manifests, todo) == Total(manifests, rows)
        decreases todo
      {
        var id :| id in todo;
        TotalSplit(manifests, todo, id);
        bytes := bytes + manifests[id].size;
        todo := todo - {id};
      }
    }

    /** store_raw with write_encrypted: temporary file, atomic replacement, manifest; what was written is cleaned up, unless
        the process dies or the clean-up fails. */
    method StoreObject(n: NewRaw, now: int, cut: Cut) returns (stored: Option<Id>)
      modifies this
      ensures Contents() == StoreRaw(old(Contents()), n, now, cut)
      ensures stored.Some? <==> cut == NoCut && !StoreRefused(old(Contents()), n, now)
      ensures stored.Some? ==> stored.value == old(nextId)
    {
      stored := None;
      if n.content == 0 || n.source !in sources || sources[n.source] {
        return;
      }
      if n.retention != UserRetained && (n.expires.None? || n.expires.value <= now) {
        return;
      }
      var used := RawVaultUsage();
      if used + n.content + TAG > quota {
        return;
      }
      var id := nextId;
      if cut.BeforeTemp? {
        return;
      }
      temps := temps + 1;
      if cut.AfterTemp? {
        if !cut.left {
          temps := temps - 1;
        }
        return;
      }
      temps, files := temps - 1, files + {id};
      if cut.AfterReplace? {
        if !cut.left {
          files := files - {id};
        }
        return;
      }
      manifests := manifests[id := NewManifest(n)];
      nextId := id + 1;
      stored := Some(id);
    }

    /** The staging of some manifests in one transaction; nothing changes when one of them raises. */
    method StageRawDeletions(ids: set<Id>, final: Final) returns (ok: bool)
      requires ids <= manifests.Keys
      modifies `manifests
      ensures ok <==> forall id :: id in ids ==> Staged(old(manifests)[id], final).Some?
      ensures manifests == if ok then StageAll(old(manifests), ids, final) else old(manifests)
    {
      hide StageAll;
      ok := true;
      var saved := manifests;
      var todo := ids;
      while todo != {}
        invariant todo <= ids && manifests.Keys == saved.Keys
        invariant forall id :: id in ids - todo ==> Staged(saved[id], final).Some?
        invariant forall id :: id in saved ==>
          manifests[id] == if id in ids - todo then Staged(saved[id], final).GetOr(saved[id]) else saved[id]
        decreases todo
      {
        var id :| id in todo;
        var staged := Staged(manifests[id], final);
        if staged == None {
          manifests := saved;
          return false;
        }
        manifests := manifests[id := staged.value];
        todo := todo - {id};
      }
      assert ids - todo == ids;
    }

    /** delete_source: stage the raw objects, create the job and its queue entry. */
    method DeleteSourceObject(source: Id, replicas: set<string>, now: int) returns (job: Option<Id>)
      modifies this
      ensures Contents() == DeleteSource(old(Contents()), source, replicas, now)
      ensures job.Some? <==> !DeleteRefused(old(Contents()), source)
    {
      hide StageAll;
      if source !in sources || sources[source] {
        return None;
      }
      var raws := RawsOf(Contents().raw, source);
      var ok := StageRawDeletions(raws, UserDeleted);
      if !ok {
        return None;
      }
      sources := sources[source := true];
      var id := nextId;
      var record := NewJob(source, raws, replicas);
      jobs := jobs[id := record];
      var state := if record.state == JobCompleted then QueueCompleted else Queued;
      queue := queue[id + 1 := QueueJob(Linked(id), Order(Delete, Some(id), 100, 10, Some(now)), now, now, state, 0)];
      nextId := id + 2;
      job := Some(id);
    }

    /** The staging half of purge_expired_raw. */
    method StageExpired(at: int)
      requires RawOk(Contents())
      modifies `manifests
      ensures Contents() == StagePurge(old(Contents()), at)
    {
      var ids := PurgeIds(Contents().raw, at);
      forall id | id in ids ensures Staged(manifests[id], Expired).Some? {
        assert ManifestOk(Contents(), id);
      }
      var ok := StageRawDeletions(ids, Expired);
    }

    /** _finalize_raw_deletion; `done` is false where it raises or dies. */
    method FinalizeRawDeletion(id: Id, unlink: Unlink) returns (done: bool)
      modifies `manifests, `files
      ensures Contents() == FinalizeRaw(old(Contents()), id, unlink)
      ensures done ==> id in manifests && (manifests[id].state == Erased)
      ensures id in old(manifests) && unlink == Finished && (Finalizable(old(Contents()), id) || old(manifests)[id].state == Erased) ==> done
    {
      if id !in manifests || manifests[id].state == Erased {
        return id in manifests;
      }
      var m := manifests[id];
      if m.state != DeletePending || m.deletion != PendingDeletion || m.pending == None || unlink == BeforeUnlink {
        return false;
      }
      files := files - {id};
      if unlink == AfterUnlink {
        return false;
      }
      manifests := manifests[id := m.(state := Erased, deletion := Gone(m.pending.value), pending := None)];
      done := true;
    }

    /** _raw_cleanup_complete over the objects of a job: those that are not cleaned up. */
    method PendingObjects(raws: set<Id>) returns (pending: set<Id>)
      ensures pending == set id | id in raws && !CleanedUp(Contents().raw, id)
    {
      pending := {};
      var todo := raws;
      while todo != {}
        invariant todo <= raws
        invariant pending == set id | id in raws - todo && !CleanedUp(Contents().raw, id)
        decreases todo
      {
        var id :| id in todo;
        if id !in manifests || manifests[id].state != Erased || id in files {
          pending := pending + {id};
        }
        todo := todo - {id};
      }
      assert raws - todo == raws;
    }

    /** _update_deletion_job_tx: the job row, then its queue entry. */
    method UpdateDeletionJob(id: Id, job: DeletionJob, now: int)
      modifies `jobs, `queue
      ensures Contents() == UpdateJob(old(Contents()), id, job, now)
    {
      hide RelinkAll;
      jobs := jobs[id := job];
      var saved := queue;
      var todo := queue.Keys;
      while todo != {}
        invariant todo <= saved.Keys && queue.Keys == saved.Keys && jobs == old(jobs)[id := job]
        invariant forall q :: q in saved ==> queue[q] == if q in todo then saved[q] else Relinked(saved[q], id, job.state, now)
        decreases todo
      {
        var q :| q in todo;
        if queue[q].key == Linked(id) {
          if job.state == JobCompleted {
            queue := queue[q := queue[q].(state := QueueCompleted)];
          } else if queue[q].state != QueueCompleted {
            queue := queue[q := queue[q].(state := Queued, available := now)];
          }
        }
        todo := todo - {q};
      }
      assert queue == RelinkAll(saved, id, job.state, now);
    }

    /** _reconcile_deletion_job. */
    method ReconcileDeletionJob(id: Id, failed: set<Id>, now: int)
      modifies `jobs, `queue
      ensures Contents() == Reconcile(old(Contents()), id, failed, now)
    {
      hide UpdateJob, CleanedUp;
      if id in jobs {
        var job := jobs[id];
        var pending := PendingObjects(job.raws);
        var state := StateOf(pending == {}, job.pendingReplicas);
        var checked := job.(pendingRaws := pending, failedRaws := (job.failedRaws + failed) * pending, cleanup := pending == {},
                            proof := state == JobCompleted, state := state);
        UpdateDeletionJob(id, checked, now);
      }
    }

    /** acknowledge_deletion. */
    method AcknowledgeDeletion(id: Id, replica: string, now: int)
      modifies `jobs, `queue
      ensures Contents() == Acknowledge(old(Contents()), id, replica, now)
    {
      hide UpdateJob;
      if replica == "" || id !in jobs || replica !in jobs[id].pendingReplicas + jobs[id].ackedReplicas {
        return;
      }
      var job := jobs[id];
      var pending := job.pendingReplicas - {replica};
      var state := StateOf(job.cleanup, pending);
      UpdateDeletionJob(id, job.(pendingReplicas := pending, ackedReplicas := job.ackedReplicas + {replica},
                                 proof := state == JobCompleted, state := state), now);
    }

    /** _finalize_deletion_job_raw: every object is tried, whatever becomes of the others, and the job is checked. When
        nothing goes wrong, the deletion is complete as soon as its replicas are. */
    method FinalizeDeletionJob(id: Id, unlinks: map<Id, Unlink>, now: int)
      requires Sound(Contents()) && id in jobs
      modifies `manifests, `files, `jobs, `queue
      ensures Sound(Contents()) && id in jobs && jobs[id].raws == old(jobs)[id].raws
      ensures unlinks == map[] ==> forall r :: r in jobs[id].raws ==> CleanedUp(Contents().raw, r)
      ensures unlinks == map[] ==> (jobs[id].state == JobCompleted <==> jobs[id].pendingReplicas == {})
    {
      assert JobOk(Contents(), id);
      if jobs[id].raws == {} || (jobs[id].cleanup && jobs[id].pendingRaws == {} && jobs[id].failedRaws == {}) {
        forall r | r in jobs[id].raws ensures CleanedUp(Contents().raw, r) {
          assert ManifestOk(Contents(), r) && r in jobs[id].raws - jobs[id].pendingRaws;
        }
        return;
      }
      var raws := jobs[id].raws;
      var failed := FinalizeObjects(raws, unlinks);
      StepKeepsSound(Contents(), Check(id, failed, now));
      forall r | r in raws && r in manifests && manifests[r].state == Erased ensures CleanedUp(Contents().raw, r) {
        assert ManifestOk(Contents(), r);
      }
      CheckedJob(Contents(), id, failed, now);
      ReconcileDeletionJob(id, failed, now);
    }

    /** The loop over the objects of a job; what fails is reported and does not stop the others. */
    method FinalizeObjects(raws: set<Id>, unlinks: map<Id, Unlink>) returns (failed: set<Id>)
      requires Sound(Contents()) && raws <= manifests.Keys
      requires forall r :: r in raws ==> manifests[r].state in {DeletePending, Erased}
      modifies `manifests, `files
      ensures Sound(Contents())
      ensures unlinks == map[] ==> forall r :: r in raws ==> r in manifests && manifests[r].state == Erased
    {
      hide Sound;
      failed := {};
      var todo := raws;
      while todo != {}
        invariant todo <= raws <= manifests.Keys && Sound(Contents())
        invariant forall r :: r in raws ==> manifests[r].state in {DeletePending, Erased}
        invariant unlinks == map[] ==> forall r :: r in raws - todo ==> manifests[r].state == Erased
        decreases todo
      {
        var r :| r in todo;
        var unlink := if r in unlinks then unlinks[r] else Finished;
        FinalizeStep(Contents(), r, unlink);
        var done := FinalizeRawDeletion(r, unlink);
        if !done {
          failed := failed + {r};
        }
        todo := todo - {r};
      }
      assert raws - todo == raws;
    }

    /** The pending deletions finalised when the store is opened. */
    method FinalizePending()
      requires Sound(Contents()) && Swept(Contents())
      modifies `manifests, `files
      ensures Sound(Contents()) && Clean(Contents())
      ensures manifests.Keys == old(manifests).Keys
      ensures forall id :: id in manifests && old(manifests)[id].state == Ready ==> manifests[id] == old(manifests)[id]
    {
      hide Sound;
      var pending := set id | id in manifests && manifests[id].state == DeletePending;
      var todo := pending;
      while todo != {}
        invariant Sound(Contents()) && Swept(Contents()) && manifests.Keys == old(manifests).Keys && jobs == old(jobs)
        invariant forall id :: id in manifests && manifests[id].state == DeletePending ==> id in todo
        invariant forall id :: id in todo ==> id in manifests && manifests[id].state == DeletePending
        invariant forall id :: id in manifests && old(manifests)[id].state == Ready ==> manifests[id] == old(manifests)[id]
        decreases todo
      {
        var id :| id in todo;
        FinalizeStep(Contents(), id, Finished);
        var done := FinalizeRawDeletion(id, Finished);
        todo := todo - {id};
      }
      assert RawOk(Contents()) by { SoundRaw(Contents()); }
      SweptIsClean(Contents());
    }

    /** The deletion jobs checked when the store is opened. */
    method CheckJobs(now: int)
      requires Sound(Contents()) && Clean(Contents())
      modifies `jobs, `queue
      ensures Sound(Contents()) && jobs.Keys == old(jobs).Keys
      ensures forall j :: j in jobs ==> (jobs[j].state == JobCompleted <==> jobs[j].pendingReplicas == {})
    {
      var all := jobs.Keys;
      var todo := all;
      while todo != {}
        invariant todo <= all && all == jobs.Keys && Sound(Contents())
        invariant forall j :: j in all - todo ==> (jobs[j].state == JobCompleted <==> jobs[j].pendingReplicas == {})
        decreases todo
      {
        var j :| j in todo;
        StepKeepsSound(Contents(), Check(j, {}, now));
        CheckedJob(Contents(), j, {}, now);
        CleanJob(Contents(), j);
        ReconcileDeletionJob(j, {}, now);
        todo := todo - {j};
      }
      assert all - todo == all;
    }

    /** _recover_raw_vault without new faults: whatever the last process left behind, no deletion stays half done, and
        only the files of ready objects remain. */
    method RecoverRawVault(now: int)
      requires Sound(Contents())
      modifies this
      ensures Sound(Contents()) && temps == 0 && jobs.Keys == old(jobs).Keys && manifests.Keys == old(manifests).Keys
      ensures forall id :: id in manifests ==> manifests[id].state in {Ready, Erased}
      ensures forall id :: id in files <==> id in manifests && manifests[id].state == Ready
      ensures forall id :: id in manifests && old(manifests)[id].state == Ready ==> manifests[id] == old(manifests)[id]
      ensures forall j :: j in jobs ==> (jobs[j].state == JobCompleted <==> jobs[j].pendingReplicas == {})
    {
      StepKeepsSound(Contents(), SweepFiles);
      files, temps := set id | id in files && id in manifests && Referenced(manifests[id]), 0;
      NothingIsMissing(Contents());
      FinalizePending();
      CheckJobs(now);
    }

    // ---- the queue ----

    /** The condition of enqueue_job that an equal key has been used before. */
    method FindKey(key: string) returns (found: Option<Id>)
      ensures found.Some? ==> found.value in queue && queue[found.value].key == Given(key)
      ensures found.None? ==> forall id :: id in queue ==> queue[id].key != Given(key)
    {
      found := None;
      var todo := queue.Keys;
      while todo != {}
        invariant todo <= queue.Keys
        invariant forall id :: id in queue.Keys - todo ==> queue[id].key != Given(key)
        decreases todo
      {
        var id :| id in todo;
        if queue[id].key == Given(key) {
          return Some(id);
        }
        todo := todo - {id};
      }
    }

    /** enqueue_job; an equal key with an equal order gives back the first job. */
    method EnqueueJob(key: string, order: Order, now: int) returns (job: Option<Id>)
      requires KeysAreUnique(queue)
      modifies `queue, `nextId
      ensures Contents() == Enqueue(old(Contents()), key, order, now)
      ensures job.Some? <==> !EnqueueRefused(old(Contents()), key, order)
      ensures job.Some? ==> job.value in queue && queue[job.value].key == Given(key) && queue[job.value].order == order
    {
      if !(0 <= order.priority <= 100) || order.maxAttempts < 1 || |key| < 8 {
        return None;
      }
      var found := FindKey(key);
      if found.Some? {
        if queue[found.value].order != order {
          return None;
        }
        return found;
      }
      var id := nextId;
      queue := queue[id := QueueJob(Given(key), order, now, order.available.GetOr(now), Queued, 0)];
      nextId := id + 1;
      job := Some(id);
    }

    /** _release_expired_leases_tx. */
    method ReleaseExpiredLeases(now: int)
      modifies `queue
      ensures queue == ReleaseAll(old(queue), now)
    {
      hide ReleaseAll;
      var saved := queue;
      var todo := queue.Keys;
      while todo != {}
        invariant todo <= saved.Keys && queue.Keys == saved.Keys
        invariant forall q :: q in saved ==> queue[q] == if q in todo then saved[q] else Released(saved[q], now)
        decreases todo
      {
        var q :| q in todo;
        var entry := queue[q];
        if entry.state.Leased? && entry.state.expires <= now {
          var state := if entry.attempts >= entry.order.maxAttempts then QueueFailed else Queued;
          queue := queue[q := entry.(state := state)];
        }
        todo := todo - {q};
      }
    }

    /** The SELECT of lease_next_job, by priority, creation and id. */
    method SelectNext(kinds: set<QueueType>, now: int) returns (next: Option<Id>)
      ensures next.Some? ==> Next(queue, kinds, now, next.value)
      ensures next.None? ==> forall id :: id in queue ==> !Available(queue[id], kinds, now)
    {
      next := None;
      var todo := queue.Keys;
      while todo != {}
        invariant todo <= queue.Keys
        invariant next.Some? ==> next.value in queue && Available(queue[next.value], kinds, now)
        invariant forall id :: id in queue.Keys - todo && Available(queue[id], kinds, now) ==> next.Some? && Before(queue, next.value, id)
        decreases todo
      {
        var id :| id in todo;
        if Available(queue[id], kinds, now) && (next.None? || Before(queue, id, next.value)) {
          next := Some(id);
        }
        todo := todo - {id};
      }
    }

    /** lease_next_job. */
    method LeaseNextJob(worker: string, seconds: int, kinds: set<QueueType>, now: int) returns (leased: Option<Id>)
      modifies `queue
      ensures Possible(old(Contents()), LeaseOne(worker, seconds, kinds, now, leased))
      ensures Contents() == Lease(old(Contents()), worker, seconds, kinds, now, leased)
      ensures leased.Some? ==> Holds(Contents(), leased.value, worker, now)
    {
      hide ReleaseAll;
      leased := None;
      if worker == "" || !(1 <= seconds <= 3600) || kinds == {} {
        return;
      }
      ReleaseExpiredLeases(now);
      leased := SelectNext(kinds, now);
      if leased.Some? {
        var entry := queue[leased.value];
        queue := queue[leased.value := entry.(state := Leased(worker, now + seconds), attempts := entry.attempts + 1)];
      }
    }

    /** complete_job: a delete job only after its proof. */
    method CompleteLeasedJob(id: Id, worker: string, now: int) returns (ok: bool)
      modifies `queue
      ensures ok <==> !CompleteRefused(old(Contents()), id, worker, now)
      ensures Contents() == CompleteJob(old(Contents()), id, worker, now)
    {
      if !Holds(Contents(), id, worker, now) {
        return false;
      }
      var order := queue[id].order;
      if order.kind == Delete {
        if order.deletion == None || order.deletion.value !in jobs {
          return false;
        }
        var deletion := jobs[order.deletion.value];
        if deletion.state != JobCompleted || !deletion.proof {
          return false;
        }
      }
      queue := queue[id := queue[id].(state := QueueCompleted)];
      ok := true;
    }

    /** fail_job: another attempt after a growing delay, or the end. */
    method FailLeasedJob(id: Id, worker: string, errorCode: string, base: int, cap: int, now: int) returns (ok: bool)
      modifies `queue
      ensures ok <==> !FailRefused(old(Contents()), id, worker, errorCode, base, cap, now)
      ensures Contents() == FailJob(old(Contents()), id, worker, errorCode, base, cap, now)
    {
      if !Holds(Contents(), id, worker, now) || errorCode == "" || |errorCode| > 64 || base <= 0 || cap < base {
        return false;
      }
      var entry := queue[id];
      if entry.attempts >= entry.order.maxAttempts {
        queue := queue[id := entry.(state := QueueFailed, available := now)];
      } else {
        var grown, doublings := base, if entry.attempts == 0 then 0 else entry.attempts - 1;
        for i := 0 to doublings
          invariant grown == base * Power(i)
        {
          grown := 2 * grown;
        }
        var delay := if grown < cap then grown else cap;
        queue := queue[id := entry.(state := Queued, available := now + delay)];
      }
      ok := true;
    }
  }

  lemma SoundRaw(s: Store)
    requires Sound(s)
    ensures RawOk(s)
  {
  }

  /** Finalising one object: the store stays sound, other objects stay what they are, and without a cut it is erased. */
  lemma FinalizeStep(s: Store, id: Id, unlink: Unlink)
    requires Sound(s) && id in s.raw.manifests && s.raw.manifests[id].state in {DeletePending, Erased}
    ensures var t := FinalizeRaw(s, id, unlink);
      && Sound(t) && t.raw.manifests.Keys == s.raw.manifests.Keys
      && (forall x :: x in s.raw.manifests && x != id ==> t.raw.manifests[x] == s.raw.manifests[x])
      && t.raw.manifests[id].state in {DeletePending, Erased}
      && (unlink == Finished ==> t.raw.manifests[id].state == Erased && id !in t.raw.files)
      && (s.raw.manifests[id].state == DeletePending ==> Finalizable(s, id))
  {
    assert ManifestOk(s, id);
    StepKeepsSound(s, Finalize(id, unlink));
  }

  ghost predicate Swept(s: Store) {
    forall id :: id in s.raw.files ==> id in s.raw.manifests && s.raw.manifests[id].state in {Ready, DeletePending}
  }

  ghost predicate Clean(s: Store) {
    && (forall id :: id in s.raw.manifests ==> s.raw.manifests[id].state in {Ready, Erased})
    && (forall id :: id in s.raw.files <==> id in s.raw.manifests && s.raw.manifests[id].state == Ready)
  }

  lemma SweptIsClean(s: Store)
    requires RawOk(s) && Swept(s) && forall id :: id in s.raw.manifests ==> s.raw.manifests[id].state != DeletePending
    ensures Clean(s)
  {
    forall id | id in s.raw.manifests
      ensures s.raw.manifests[id].state in {Ready, Erased} && (s.raw.manifests[id].state == Ready ==> id in s.raw.files)
    {
      assert ManifestOk(s, id);
    }
  }

  /** The objects of a job on a clean store are all cleaned up. */
  lemma CleanJob(s: Store, j: Id)
    requires Sound(s) && Clean(s) && j in s.jobs
    ensures forall r :: r in s.jobs[j].raws ==> CleanedUp(s.raw, r)
  {
    assert JobOk(s, j);
  }

  /** A checked job is completed exactly when its objects are cleaned up and its replicas have acknowledged. */
  lemma CheckedJob(s: Store, j: Id, failed: set<Id>, now: int)
    requires Sound(s) && j in s.jobs
    ensures var t := Reconcile(s, j, failed, now);
      && t.raw == s.raw && t.jobs.Keys == s.jobs.Keys && (forall x :: x in s.jobs && x != j ==> t.jobs[x] == s.jobs[x])
      && t.jobs[j].raws == s.jobs[j].raws && t.jobs[j].pendingReplicas == s.jobs[j].pendingReplicas
      && (t.jobs[j].state == JobCompleted <==> t.jobs[j].pendingReplicas == {} && forall r :: r in s.jobs[j].raws ==> CleanedUp(s.raw, r))
  {
    var t := Reconcile(s, j, failed, now);
    hide CleanedUp;
    assert forall x :: x in s.jobs[j].raws && !CleanedUp(s.raw, x) ==> x in t.jobs[j].pendingRaws;
  }
}
