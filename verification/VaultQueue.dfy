/** The durable queue: attempts are bounded, finished jobs stay finished, and leases are exclusive. */
module VaultQueue {
  import opened Json
  import opened VaultModel
  import opened VaultSafety

  // ---- attempts ----

  /** A caller's own job: attempts stay within the maximum, and a queued one has an attempt left. */
  ghost predicate BoundOk(s: Store, q: Id) {
    q in s.queue && s.queue[q].key.Given? ==>
      && q < s.nextId && s.queue[q].order.maxAttempts >= 1 && s.queue[q].attempts <= s.queue[q].order.maxAttempts
      && (s.queue[q].state == Queued ==> s.queue[q].attempts < s.queue[q].order.maxAttempts)
      && (s.queue[q].state.Leased? ==> s.queue[q].attempts >= 1)
  }

  /** The leases a run granted on a job. */
  ghost function LeasesGranted(actions: seq<Action>, q: Id): nat {
    if actions == [] then 0
    else
      var last := actions[|actions| - 1];
      LeasesGranted(actions[..|actions| - 1], q) +
      (if last.LeaseOne? && !LeaseRefused(last.worker, last.seconds, last.kinds) && last.next == Some(q) then 1 else 0)
  }

  ghost predicate CountsLeases(s: Store, granted: nat, q: Id) {
    BoundOk(s, q) && (if q in s.queue then s.queue[q].attempts == granted else granted == 0)
  }

  lemma StepCounts(s: Store, action: Action, granted: nat, q: Id)
    requires CountsLeases(s, granted, q) && Possible(s, action) && EntryOk(s, q) && (q in s.queue ==> q < s.nextId)
    ensures var more := if action.LeaseOne? && !LeaseRefused(action.worker, action.seconds, action.kinds) && action.next == Some(q) then 1 else 0;
      CountsLeases(Act(s, action), granted + more, q)
  {
    hide StoreRefused, StageAll, RawsOf, PurgeIds, Finalizable, MissingMarked, CleanedUp, DeleteRefused, LeaseRefused,
      NewManifest, NewJob, Backoff;
  }

  lemma {:induction false} AttemptsCountLeases(quota: nat, actions: seq<Action>, q: Id)
    requires PossibleRun(quota, actions)
    ensures CountsLeases(Run(quota, actions), LeasesGranted(actions, q), q)
  {
    if actions != [] {
      var n := |actions| - 1;
      PrefixIsPossible(quota, actions, n);
      AttemptsCountLeases(quota, actions[..n], q);
      RunKeepsSound(quota, actions[..n]);
      RunLast(quota, actions);
      assert Possible(Run(quota, actions[..n]), actions[n]);
      var s := Run(quota, actions[..n]);
      assert EntryOk(s, q);
      hide Run, PossibleRun, Possible, Act, CountsLeases, EntryOk, Sound;
      StepCounts(s, actions[n], LeasesGranted(actions[..n], q), q);
    }
  }

  /** A caller's job is leased at most as often as it may be tried, in any run; and while it is queued it can still be. */
  lemma {:induction false} LeasesAreBounded(quota: nat, actions: seq<Action>, q: Id)
    requires PossibleRun(quota, actions) && q in Run(quota, actions).queue && Run(quota, actions).queue[q].key.Given?
    ensures var entry := Run(quota, actions).queue[q];
      && LeasesGranted(actions, q) <= entry.order.maxAttempts
      && (entry.state == Queued ==> LeasesGranted(actions, q) < entry.order.maxAttempts)
  {
    AttemptsCountLeases(quota, actions, q);
  }

  /** Not so for the entry of a deletion: checking a deletion that is not complete queues it again, however often it was
      tried, even after it failed. */
  lemma DeletionEntriesAreRequeued(s: Store, j: Id, q: Id, failed: set<Id>, now: int)
    requires Sound(s) && j in s.jobs && q in s.queue && s.queue[q].key == Linked(j)
    requires !Kept(s, s.jobs[j])
    ensures var t := Reconcile(s, j, failed, now);
      t.queue[q] == s.queue[q].(state := Queued, available := now)
  {
    assert JobOk(s, j) && EntryOk(s, q);
    var t := Reconcile(s, j, failed, now);
    assert forall x :: x in s.jobs[j].raws && !CleanedUp(s.raw, x) ==> x in t.jobs[j].pendingRaws;
    forall r | r in s.jobs[j].raws && s.jobs[j].state == JobCompleted ensures CleanedUp(s.raw, r) {
      assert ManifestOk(s, r) && r in s.jobs[j].raws - s.jobs[j].pendingRaws;
    }
  }

  // ---- what finishes a job ----

  predicate IsFinished(entry: QueueJob) { entry.state in {QueueCompleted, QueueFailed} }

  /** A caller's finished job never changes again. */
  lemma FinishedStays(s: Store, action: Action, q: Id)
    requires q in s.queue && s.queue[q].key.Given? && IsFinished(s.queue[q]) && q < s.nextId && Possible(s, action)
    ensures q in Act(s, action).queue && Act(s, action).queue[q] == s.queue[q]
  {
  }

  lemma {:induction false} FinishedForGood(quota: nat, before: seq<Action>, after: seq<Action>, q: Id)
    requires PossibleRun(quota, before + after)
    requires q in Run(quota, before).queue && Run(quota, before).queue[q].key.Given? && IsFinished(Run(quota, before).queue[q])
    ensures q in Run(quota, before + after).queue && Run(quota, before + after).queue[q] == Run(quota, before).queue[q]
    decreases after
  {
    hide Act, Possible, Sound;
    if after == [] {
      assert before + after == before;
    } else {
      var all, rest, last := before + after, after[..|after| - 1], after[|after| - 1];
      assert all[..|all| - 1] == before + rest && all[|all| - 1] == last;
      PrefixIsPossible(quota, all, |all| - 1);
      FinishedForGood(quota, before, rest, q);
      RunKeepsSound(quota, before + rest);
      RunLast(quota, all);
      EntriesAreOld(Run(quota, before + rest), q);
      assert Possible(Run(quota, all[..|all| - 1]), last);
      FinishedStays(Run(quota, before + rest), last, q);
    }
  }

  lemma EntriesAreOld(s: Store, q: Id)
    requires Sound(s) && q in s.queue
    ensures q < s.nextId
  {
    assert EntryOk(s, q);
  }

  /** A lease ends in one of three ways: its owner completes or fails the job before it expires, somebody leases jobs
      after it expired, or, for a deletion, the deletion itself is checked or acknowledged. */
  lemma LeaseIsExclusive(s: Store, action: Action, q: Id)
    requires q in s.queue && s.queue[q].state.Leased? && q < s.nextId && Possible(s, action)
    requires Act(s, action).queue[q] != s.queue[q]
    ensures
      || (action.CompleteOne? && action.id == q && action.worker == s.queue[q].state.owner && action.now < s.queue[q].state.expires)
      || (action.FailOne? && action.id == q && action.worker == s.queue[q].state.owner && action.now < s.queue[q].state.expires)
      || (action.LeaseOne? && action.now >= s.queue[q].state.expires)
      || (s.queue[q].key.Linked? && (action.Check? || action.Ack?))
  {
  }

  // ---- which job is leased ----

  /** There is at most one next job. */
  lemma NextIsUnique(queue: map<Id, QueueJob>, kinds: set<QueueType>, now: int, a: Id, b: Id)
    requires Next(queue, kinds, now, a) && Next(queue, kinds, now, b)
    ensures a == b
  {
    assert Before(queue, a, b) && Before(queue, b, a);
  }

  /** A lease takes an available job that no available job comes before, gives it to the worker, and leaves the others. */
  lemma LeaseTakesTheNext(s: Store, worker: string, seconds: int, kinds: set<QueueType>, now: int, id: Id)
    requires !LeaseRefused(worker, seconds, kinds) && Possible(s, LeaseOne(worker, seconds, kinds, now, Some(id)))
    ensures var t := Lease(s, worker, seconds, kinds, now, Some(id));
      && Holds(t, id, worker, now) && t.queue[id].attempts == s.queue[id].attempts + 1
      && (forall other :: other in t.queue && other != id ==> t.queue[other] == Released(s.queue[other], now))
      && (forall other :: other in t.queue && other != id && Available(t.queue[other], kinds, now) ==>
            t.queue[other].order.priority < t.queue[id].order.priority ||
            (t.queue[other].order.priority == t.queue[id].order.priority &&
              (t.queue[id].created < t.queue[other].created || (t.queue[id].created == t.queue[other].created && id < other))))
  {
    var queue := ReleaseAll(s.queue, now);
    forall other | other in queue && other != id && Available(queue[other], kinds, now) ensures Before(queue, id, other) {}
  }

  // ---- backoff ----

  lemma {:induction false} PowerGrows(a: nat, b: nat)
    requires a <= b
    ensures 1 <= Power(a) <= Power(b)
    decreases b
  {
    if a < b {
      PowerGrows(a, b - 1);
    } else if a > 0 {
      PowerGrows(a - 1, b - 1);
    }
  }

  /** The delay stays between the base and the cap, and never shrinks as attempts grow. */
  lemma BackoffIsBounded(base: int, cap: int, few: nat, many: nat)
    requires 0 < base <= cap && few <= many
    ensures base <= Backoff(base, cap, few) <= Backoff(base, cap, many) <= cap
  {
    var a, b := if few == 0 then 0 else few - 1, if many == 0 then 0 else many - 1;
    PowerGrows(0, a);
    PowerGrows(a, b);
    assert base * Power(0) <= base * Power(a) <= base * Power(b) by {
      Scale(base, Power(0), Power(a));
      Scale(base, Power(a), Power(b));
    }
  }

  lemma Scale(base: int, a: int, b: int)
    requires base > 0 && a <= b
    ensures base * a <= base * b
  {
  }

  // ---- keys ----

  /** No two entries share a key, which the queue table demands. */
  ghost predicate KeysAreUnique(queue: map<Id, QueueJob>) {
    forall a, b :: a in queue && b in queue && queue[a].key == queue[b].key ==> a == b
  }

  lemma StepKeepsKeysUnique(s: Store, action: Action)
    requires Sound(s) && KeysAreUnique(s.queue) && Possible(s, action)
    ensures KeysAreUnique(Act(s, action).queue)
  {
    if action.DeleteOne? {
      forall q | q in s.queue ensures s.queue[q].key != Linked(s.nextId) {
        assert EntryOk(s, q) && JobOk(s, s.nextId);
      }
    }
    hide RawOk, JobsOk, StoreRefused, StageAll, RawsOf, PurgeIds, Finalizable, MissingMarked, CleanedUp, DeleteRefused, LeaseRefused,
      CompleteRefused, FailRefused, NewJob, Available, Before;
  }

  lemma {:induction false} RunKeepsKeysUnique(quota: nat, actions: seq<Action>)
    requires PossibleRun(quota, actions)
    ensures KeysAreUnique(Run(quota, actions).queue)
  {
    if actions != [] {
      var n := |actions| - 1;
      PrefixIsPossible(quota, actions, n);
      RunKeepsKeysUnique(quota, actions[..n]);
      RunKeepsSound(quota, actions[..n]);
      RunLast(quota, actions);
      assert Possible(Run(quota, actions[..n]), actions[n]);
      StepKeepsKeysUnique(Run(quota, actions[..n]), actions[n]);
    }
  }
}
