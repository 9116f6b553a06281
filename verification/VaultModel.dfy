/** Raw objects, deletion jobs and the durable queue of Core, as atomic durable steps (core.py and raw_vault.py). Any
    operation is a sequence of these steps, and a crash drops the rest of the sequence. */
module VaultModel {
  import opened Json

  type Id = nat

  // ---- raw objects ----

  datatype RawState = Ready | DeletePending | Erased | Missing

  datatype Final = UserDeleted | Expired

  datatype DeletionState = ActiveCopy | PendingDeletion | Gone(final: Final)

  datatype Retention = EphemeralRecovery | UserRetained | DerivedRebuildable

  datatype Manifest = Manifest(
    source: Id, size: nat, retention: Retention, expires: Option<int>,
    state: RawState, deletion: DeletionState, pending: Option<Final>)

  /** Manifests, the object files by raw id, temporary files left behind, and the sources. */
  datatype Raw = Raw(manifests: map<Id, Manifest>, files: set<Id>, temps: nat, sources: map<Id, bool>, quota: nat)

  /** The AES-GCM tag that every ciphertext carries. */
  const TAG := 16

  predicate Referenced(m: Manifest) {
    (m.state == Ready && m.deletion == ActiveCopy) || (m.state == DeletePending && m.deletion == PendingDeletion)
  }

  /** What raw_vault_usage counts. */
  predicate Counted(m: Manifest) {
    m.state in {Ready, DeletePending} && m.deletion in {ActiveCopy, PendingDeletion}
  }

  function CountedIds(manifests: map<Id, Manifest>): set<Id> {
    set id | id in manifests && Counted(manifests[id])
  }

  ghost function Total(manifests: map<Id, Manifest>, ids: set<Id>): nat
    requires ids <= manifests.Keys
    decreases ids
  {
    if ids == {} then 0 else manifests[Pick(ids)].size + Total(manifests, ids - {Pick(ids)})
  }

  ghost function Pick(ids: set<Id>): (id: Id)
    requires ids != {}
    ensures id in ids
  {
    var id :| id in ids;
    id
  }

  ghost function Used(raw: Raw): nat {
    Total(raw.manifests, CountedIds(raw.manifests))
  }

  // ---- deletion jobs ----

  datatype JobState = JobCompleted | PartialFailed

  datatype DeletionJob = DeletionJob(
    source: Id, raws: set<Id>, pendingRaws: set<Id>, failedRaws: set<Id>,
    pendingReplicas: set<string>, ackedReplicas: set<string>, cleanup: bool, proof: bool, state: JobState)

  // ---- the durable queue ----

  datatype QueueType = Processing | Sync | Delete | Export | Recompute

  /** The idempotency key of a queue job: the one delete_source makes, or a caller's own. */
  datatype QueueKey = Linked(deletion: Id) | Given(key: string)

  datatype QueueState = Queued | Leased(owner: string, expires: int) | QueueCompleted | QueueFailed

  /** What a caller enqueues; its hash is taken to be injective. */
  datatype Order = Order(kind: QueueType, deletion: Option<Id>, priority: int, maxAttempts: int, available: Option<int>)

  datatype QueueJob = QueueJob(key: QueueKey, order: Order, created: int, available: int, state: QueueState, attempts: nat)

  datatype Store = Store(raw: Raw, jobs: map<Id, DeletionJob>, queue: map<Id, QueueJob>, nextId: Id)

  function Start(quota: nat): Store { Store(Raw(map[], {}, 0, map[], quota), map[], map[], 1) }

  // ---- storing a raw object ----

  /** Where a write is cut short, and whether what it wrote so far is left: the process dies, or the clean-up that the
      exception runs fails too. */
  datatype Cut = NoCut | BeforeTemp(left: bool) | AfterTemp(left: bool) | AfterReplace(left: bool)

  datatype NewRaw = NewRaw(source: Id, content: nat, retention: Retention, expires: Option<int>)

  ghost predicate StoreRefused(s: Store, n: NewRaw, now: int) {
    || n.content == 0
    || n.source !in s.raw.sources || s.raw.sources[n.source]
    || (n.retention != UserRetained && (n.expires.None? || n.expires.value <= now))
    || Used(s.raw) + n.content + TAG > s.raw.quota
  }

  function NewManifest(n: NewRaw): Manifest {
    Manifest(n.source, n.content + TAG, n.retention, n.expires, Ready, ActiveCopy, None)
  }

  /** store_raw: the file is written beside its final path, moved there, and only then does the manifest commit. */
  ghost function StoreRaw(s: Store, n: NewRaw, now: int, cut: Cut): Store {
    if StoreRefused(s, n, now) then s
    else
      match cut
      case BeforeTemp(_) => s
      case AfterTemp(left) => if left then s.(raw := s.raw.(temps := s.raw.temps + 1)) else s
      case AfterReplace(left) =>
        s.(raw := s.raw.(files := if left then s.raw.files + {s.nextId} else s.raw.files - {s.nextId}))
      case NoCut =>
        s.(raw := s.raw.(files := s.raw.files + {s.nextId}, manifests := s.raw.manifests[s.nextId := NewManifest(n)]),
           nextId := s.nextId + 1)
  }

  // ---- deleting raw objects ----

  /** _stage_raw_deletion_tx on one manifest; None where it raises. */
  function Staged(m: Manifest, final: Final): Option<Manifest> {
    if m.state == Erased then Some(m)
    else if m.state == DeletePending then (if m.pending == Some(final) then Some(m) else None)
    else if m.state != Ready || m.deletion != ActiveCopy then None
    else Some(m.(state := DeletePending, deletion := PendingDeletion, pending := Some(final)))
  }

  function StageAll(manifests: map<Id, Manifest>, ids: set<Id>, final: Final): (staged: map<Id, Manifest>)
    requires ids <= manifests.Keys
    ensures staged.Keys == manifests.Keys
    ensures forall id :: id in manifests ==>
      staged[id] == if id in ids then Staged(manifests[id], final).GetOr(manifests[id]) else manifests[id]
  {
    map id | id in manifests :: if id in ids then Staged(manifests[id], final).GetOr(manifests[id]) else manifests[id]
  }

  datatype Unlink = BeforeUnlink | AfterUnlink | Finished

  /** _finalize_raw_deletion: the file goes first, inside the transaction that then marks the manifest deleted. */
  function FinalizeRaw(s: Store, id: Id, unlink: Unlink): Store {
    if !Finalizable(s, id) then s
    else
      var m := s.raw.manifests[id];
      match unlink
      case BeforeUnlink => s
      case AfterUnlink => s.(raw := s.raw.(files := s.raw.files - {id}))
      case Finished =>
        var done := m.(state := Erased, deletion := Gone(m.pending.value), pending := None);
        s.(raw := s.raw.(files := s.raw.files - {id}, manifests := s.raw.manifests[id := done]))
  }

  predicate Finalizable(s: Store, id: Id) {
    id in s.raw.manifests && s.raw.manifests[id].state == DeletePending && s.raw.manifests[id].deletion == PendingDeletion &&
    s.raw.manifests[id].pending.Some?
  }

  // ---- deletion jobs ----

  predicate CleanedUp(raw: Raw, id: Id) {
    id in raw.manifests && raw.manifests[id].state == Erased && id !in raw.files
  }

  function RawsOf(raw: Raw, source: Id): set<Id> {
    set id | id in raw.manifests && raw.manifests[id].source == source && raw.manifests[id].deletion == ActiveCopy
  }

  predicate DeleteRefused(s: Store, source: Id) {
    || source !in s.raw.sources || s.raw.sources[source]
    || exists id :: id in RawsOf(s.raw, source) && Staged(s.raw.manifests[id], UserDeleted).None?
  }

  function StateOf(cleanup: bool, pendingReplicas: set<string>): JobState {
    if cleanup && pendingReplicas == {} then JobCompleted else PartialFailed
  }

  function NewJob(source: Id, raws: set<Id>, replicas: set<string>): DeletionJob {
    var state := StateOf(raws == {}, replicas);
    DeletionJob(source, raws, raws, {}, replicas, {}, raws == {}, state == JobCompleted, state)
  }

  /** The transaction of delete_source, as far as raw objects, the job and its queue entry go. */
  function DeleteSource(s: Store, source: Id, replicas: set<string>, now: int): Store {
    if DeleteRefused(s, source) then s
    else
      var raws := RawsOf(s.raw, source);
      var job := NewJob(source, raws, replicas);
      var entry := QueueJob(Linked(s.nextId), Order(Delete, Some(s.nextId), 100, 10, Some(now)), now, now,
                            if job.state == JobCompleted then QueueCompleted else Queued, 0);
      Store(s.raw.(manifests := StageAll(s.raw.manifests, raws, UserDeleted), sources := s.raw.sources[source := true]),
            s.jobs[s.nextId := job], s.queue[s.nextId + 1 := entry], s.nextId + 2)
  }

  predicate Purgeable(m: Manifest, at: int) {
    || (m.state == Ready && m.deletion == ActiveCopy && m.retention != UserRetained && m.expires.Some? && m.expires.value <= at)
    || (m.state == DeletePending && m.deletion == PendingDeletion && m.pending == Some(Expired))
  }

  function PurgeIds(raw: Raw, at: int): set<Id> {
    set id | id in raw.manifests && Purgeable(raw.manifests[id], at)
  }

  /** The staging transaction of purge_expired_raw. */
  function StagePurge(s: Store, at: int): Store {
    s.(raw := s.raw.(manifests := StageAll(s.raw.manifests, PurgeIds(s.raw, at), Expired)))
  }

  /** One entry of the queue after its deletion job was updated. */
  function Relinked(entry: QueueJob, job: Id, state: JobState, now: int): QueueJob {
    if entry.key != Linked(job) then entry
    else if state == JobCompleted then entry.(state := QueueCompleted)
    else if entry.state == QueueCompleted then entry
    else entry.(state := Queued, available := now)
  }

  function RelinkAll(queue: map<Id, QueueJob>, job: Id, state: JobState, now: int): (after: map<Id, QueueJob>)
    ensures after.Keys == queue.Keys
    ensures forall id :: id in queue ==> after[id] == Relinked(queue[id], job, state, now)
  {
    map id | id in queue :: Relinked(queue[id], job, state, now)
  }

  /** _update_deletion_job_tx. */
  function UpdateJob(s: Store, id: Id, job: DeletionJob, now: int): Store {
    s.(jobs := s.jobs[id := job], queue := RelinkAll(s.queue, id, job.state, now))
  }

  function Rechecked(raw: Raw, job: DeletionJob, failed: set<Id>): DeletionJob {
    var pending := set id | id in job.raws && !CleanedUp(raw, id);
    var state := StateOf(pending == {}, job.pendingReplicas);
    job.(pendingRaws := pending, failedRaws := (job.failedRaws + failed) * pending, cleanup := pending == {},
         proof := state == JobCompleted, state := state)
  }

  /** _reconcile_deletion_job: what is cleaned up is looked up again. */
  function Reconcile(s: Store, id: Id, failed: set<Id>, now: int): Store {
    if id !in s.jobs then s else UpdateJob(s, id, Rechecked(s.raw, s.jobs[id], failed), now)
  }

  predicate AckRefused(s: Store, id: Id, replica: string) {
    replica == "" || id !in s.jobs || replica !in s.jobs[id].pendingReplicas + s.jobs[id].ackedReplicas
  }

  function Acknowledged(job: DeletionJob, replica: string): DeletionJob {
    var pending := job.pendingReplicas - {replica};
    var state := StateOf(job.cleanup, pending);
    job.(pendingReplicas := pending, ackedReplicas := job.ackedReplicas + {replica}, proof := state == JobCompleted, state := state)
  }

  /** acknowledge_deletion. */
  function Acknowledge(s: Store, id: Id, replica: string, now: int): Store {
    if AckRefused(s, id, replica) then s else UpdateJob(s, id, Acknowledged(s.jobs[id], replica), now)
  }

  // ---- opening the store again ----

  /** RawVaultIO.recover: temporary files and unreferenced object files go. */
  function Sweep(s: Store): Store {
    var kept := set id | id in s.raw.files && id in s.raw.manifests && Referenced(s.raw.manifests[id]);
    s.(raw := s.raw.(files := kept, temps := 0))
  }

  function MissingMarked(raw: Raw, id: Id): Manifest
    requires id in raw.manifests
  {
    var m := raw.manifests[id];
    if m.state == Ready && m.deletion == ActiveCopy && id !in raw.files then m.(state := Missing) else m
  }

  /** The transaction of _recover_raw_vault that marks ready manifests without a file. */
  function MarkMissing(s: Store): Store {
    s.(raw := s.raw.(manifests := map id | id in s.raw.manifests :: MissingMarked(s.raw, id)))
  }

  // ---- the queue ----

  predicate EnqueueRefused(s: Store, key: string, order: Order) {
    || !(0 <= order.priority <= 100) || order.maxAttempts < 1 || |key| < 8
    || exists id :: id in s.queue && s.queue[id].key == Given(key) && s.queue[id].order != order
  }

  function Enqueue(s: Store, key: string, order: Order, now: int): Store {
    if EnqueueRefused(s, key, order) || (exists id :: id in s.queue && s.queue[id].key == Given(key)) then s
    else
      var entry := QueueJob(Given(key), order, now, order.available.GetOr(now), Queued, 0);
      s.(queue := s.queue[s.nextId := entry], nextId := s.nextId + 1)
  }

  /** One entry when expired leases are released. */
  function Released(entry: QueueJob, now: int): QueueJob {
    if entry.state.Leased? && entry.state.expires <= now then
      entry.(state := if entry.attempts >= entry.order.maxAttempts then QueueFailed else Queued)
    else entry
  }

  function ReleaseAll(queue: map<Id, QueueJob>, now: int): (after: map<Id, QueueJob>)
    ensures after.Keys == queue.Keys && forall id :: id in queue ==> after[id] == Released(queue[id], now)
  {
    map id | id in queue :: Released(queue[id], now)
  }

  predicate Available(entry: QueueJob, kinds: set<QueueType>, now: int) {
    entry.state == Queued && entry.available <= now && entry.order.kind in kinds
  }

  /** Higher priority first, then the older, then the smaller id. */
  predicate Before(queue: map<Id, QueueJob>, a: Id, b: Id)
    requires a in queue && b in queue
  {
    || queue[a].order.priority > queue[b].order.priority
    || (queue[a].order.priority == queue[b].order.priority &&
        (queue[a].created < queue[b].created || (queue[a].created == queue[b].created && a <= b)))
  }

  predicate LeaseRefused(worker: string, seconds: int, kinds: set<QueueType>) {
    worker == "" || !(1 <= seconds <= 3600) || kinds == {}
  }

  /** The job a lease takes. */
  predicate Next(queue: map<Id, QueueJob>, kinds: set<QueueType>, now: int, id: Id) {
    id in queue && Available(queue[id], kinds, now) &&
    forall other :: other in queue && Available(queue[other], kinds, now) ==> Before(queue, id, other)
  }

  /** lease_next_job on the given job, or on none when nothing is available. */
  function Lease(s: Store, worker: string, seconds: int, kinds: set<QueueType>, now: int, next: Option<Id>): Store {
    if LeaseRefused(worker, seconds, kinds) then s
    else
      var queue := ReleaseAll(s.queue, now);
      match next
      case None => s.(queue := queue)
      case Some(id) =>
        if id !in queue then s
        else s.(queue := queue[id := queue[id].(state := Leased(worker, now + seconds), attempts := queue[id].attempts + 1)])
  }

  /** A worker holds a job while its lease has not expired. */
  predicate Holds(s: Store, id: Id, worker: string, now: int) {
    id in s.queue && s.queue[id].state.Leased? && s.queue[id].state.owner == worker && s.queue[id].state.expires > now
  }

  predicate CompleteRefused(s: Store, id: Id, worker: string, now: int) {
    || !Holds(s, id, worker, now)
    || (s.queue[id].order.kind == Delete &&
        (s.queue[id].order.deletion.None? || s.queue[id].order.deletion.value !in s.jobs ||
         s.jobs[s.queue[id].order.deletion.value].state != JobCompleted || !s.jobs[s.queue[id].order.deletion.value].proof))
  }

  function CompleteJob(s: Store, id: Id, worker: string, now: int): Store {
    if CompleteRefused(s, id, worker, now) then s else s.(queue := s.queue[id := s.queue[id].(state := QueueCompleted)])
  }

  function Power(n: nat): nat { if n == 0 then 1 else 2 * Power(n - 1) }

  /** The delay before the next attempt, after so many. */
  function Backoff(base: int, cap: int, attempts: nat): int {
    var grown := base * Power(if attempts == 0 then 0 else attempts - 1);
    if grown < cap then grown else cap
  }

  predicate FailRefused(s: Store, id: Id, worker: string, errorCode: string, base: int, cap: int, now: int) {
    !Holds(s, id, worker, now) || errorCode == "" || |errorCode| > 64 || base <= 0 || cap < base
  }

  function FailedEntry(entry: QueueJob, base: int, cap: int, now: int): QueueJob {
    if entry.attempts >= entry.order.maxAttempts then entry.(state := QueueFailed, available := now)
    else entry.(state := Queued, available := now + Backoff(base, cap, entry.attempts))
  }

  function FailJob(s: Store, id: Id, worker: string, errorCode: string, base: int, cap: int, now: int): Store {
    if FailRefused(s, id, worker, errorCode, base, cap, now) then s
    else s.(queue := s.queue[id := FailedEntry(s.queue[id], base, cap, now)])
  }

  // ---- runs ----

  datatype Action =
    | AddSource
    | StoreOne(object: NewRaw, now: int, cut: Cut)
    | DeleteOne(source: Id, replicas: set<string>, now: int)
    | Purge(at: int)
    | Finalize(id: Id, unlink: Unlink)
    | Check(job: Id, failed: set<Id>, now: int)
    | Ack(job: Id, replica: string, now: int)
    | SweepFiles
    | LookForMissing
    | EnqueueOne(key: string, order: Order, now: int)
    | LeaseOne(worker: string, seconds: int, kinds: set<QueueType>, now: int, next: Option<Id>)
    | CompleteOne(id: Id, worker: string, now: int)
    | FailOne(id: Id, worker: string, errorCode: string, base: int, cap: int, now: int)

  ghost function Act(s: Store, action: Action): Store {
    match action
    case AddSource => s.(raw := s.raw.(sources := s.raw.sources[s.nextId := false]), nextId := s.nextId + 1)
    case StoreOne(n, now, cut) => StoreRaw(s, n, now, cut)
    case DeleteOne(source, replicas, now) => DeleteSource(s, source, replicas, now)
    case Purge(at) => StagePurge(s, at)
    case Finalize(id, unlink) => FinalizeRaw(s, id, unlink)
    case Check(job, failed, now) => Reconcile(s, job, failed, now)
    case Ack(job, replica, now) => Acknowledge(s, job, replica, now)
    case SweepFiles => Sweep(s)
    case LookForMissing => MarkMissing(s)
    case EnqueueOne(key, order, now) => Enqueue(s, key, order, now)
    case LeaseOne(worker, seconds, kinds, now, next) => Lease(s, worker, seconds, kinds, now, next)
    case CompleteOne(id, worker, now) => CompleteJob(s, id, worker, now)
    case FailOne(id, worker, errorCode, base, cap, now) => FailJob(s, id, worker, errorCode, base, cap, now)
  }

  /** A lease step takes the next job, or none when there is none. */
  ghost predicate Possible(s: Store, action: Action) {
    action.LeaseOne? && !LeaseRefused(action.worker, action.seconds, action.kinds) ==>
      var queue := ReleaseAll(s.queue, action.now);
      match action.next
      case Some(id) => Next(queue, action.kinds, action.now, id)
      case None => forall id :: id in queue ==> !Available(queue[id], action.kinds, action.now)
  }

  ghost predicate PossibleRun(quota: nat, actions: seq<Action>) {
    forall i :: 0 <= i < |actions| ==> Possible(Run(quota, actions[..i]), actions[i])
  }

  ghost function Run(quota: nat, actions: seq<Action>): Store {
    if actions == [] then Start(quota) else Act(Run(quota, actions[..|actions| - 1]), actions[|actions| - 1])
  }
}
