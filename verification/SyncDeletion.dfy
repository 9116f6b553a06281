/** Deletion that cannot be undone: what a tombstone settles in every continuation of a run. */
module SyncDeletion {
  import opened SyncModel
  import opened SyncTransitions
  import opened SyncWindow
  import opened SyncProjection
  import opened SyncConvergence

  /** Once an event is tombstoned, no revision of it is added any more and the tombstone stays. */
  ghost predicate StaysDeleted(m: Memory, r: Memory, id: string) {
    id in m.tombstones ==>
      id in r.tombstones && m.tombstones[id] <= r.tombstones[id] && SetOf(r.revisions, id) == SetOf(m.revisions, id)
  }

  lemma ApplyStaysDeleted(c: Config, m: Memory, e: Envelope, now: int, id: string)
    ensures StaysDeleted(m, ApplySemantics(c, m, e, now).memory, id)
  {
    OperationParts(m.(idempotency := m.idempotency[e.idempotencyKey := MeaningOf(e)]), e);
  }

  lemma {:induction false} DrainStaysDeleted(st: PeerState, device: string, now: int, id: string)
    ensures StaysDeleted(st.memory, Drain(st, device, now).memory, id)
    decreases |st.window.pending|
  {
    var next := Next(st.window, device);
    if next in st.window.pending {
      ApplyStaysDeleted(st.config, st.memory, st.window.pending[next].envelope, now, id);
      DrainStaysDeleted(DrainStep(st, device, now), device, now, id);
    }
  }

  lemma ReceiveStaysDeleted(st: PeerState, e: Envelope, now: int, id: string)
    ensures StaysDeleted(st.memory, Receive(st, e, now).st.memory, id)
  {
    ApplyStaysDeleted(st.config, st.memory, e, now, id);
    if IsNew(st.config, st.window, e) && SlotOf(e) == Next(st.window, e.device) {
      var eff := ApplySemantics(st.config, st.memory, e, now);
      DrainStaysDeleted(PeerState(st.config, InOrder(st.window, e), eff.memory), e.device, now, id);
    }
  }

  /** A tombstone is permanent: whatever is delivered later, the event projects as deleted and empty and
      stores no further revision. */
  lemma {:induction false} TombstoneIsPermanent(st: PeerState, ds: seq<Delivery>, id: string)
    requires id in st.memory.tombstones
    ensures var r := Run(st, ds).memory;
      && StaysDeleted(st.memory, r, id)
      && ProjectEvent(r, id).Deleted? && ProjectEvent(r, id).tombstoneCount >= |st.memory.tombstones[id]|
  {
    if ds != [] {
      var before := Run(st, ds[..|ds| - 1]);
      TombstoneIsPermanent(st, ds[..|ds| - 1], id);
      ReceiveStaysDeleted(before, ds[|ds| - 1].envelope, ds[|ds| - 1].tick, id);
    }
    SubsetSize(st.memory.tombstones[id], Run(st, ds).memory.tombstones[id]);
  }

  lemma SubsetSize<T>(a: set<T>, b: set<T>)
    requires a <= b
    ensures |a| <= |b|
  {
    assert b == a + (b - a);
  }

  predicate IsSecondTombstone(c: Config, e: Envelope, f: Envelope) {
    && e.spaceId == c.spaceId && e.sequence == 2 && e.schemaVersion in c.supported && e.operation == Tombstone
    && e.device == f.device && e.idempotencyKey == f.idempotencyKey
  }

  lemma RunOfTwo(st: PeerState, a: Delivery, b: Delivery)
    ensures Run(st, [a, b]) == Receive(Receive(st, a.envelope, a.tick).st, b.envelope, b.tick).st
  {
    assert [a, b][..1] == [a] && [a][..0] == [];
    assert Run(st, [a]) == Receive(st, a.envelope, a.tick).st;
  }

  /** Nor may one of the two be a tombstone, even if one device sent both: it is applied at once when it comes early, and
      then it is the revision before it that is refused. */
  lemma SharedKeyDivergesWithinDevice(c: Config, e: Envelope, f: Envelope)
    requires c.expiry == map[] && IsFirst(c, e) && ValidRevision(e) && IsSecondTombstone(c, f, e)
    ensures SnapshotOf(Run(Fresh(c), [Delivery(e, 0), Delivery(f, 0)])) !=
            SnapshotOf(Run(Fresh(c), [Delivery(f, 0), Delivery(e, 0)]))
  {
    RunOfTwo(Fresh(c), Delivery(e, 0), Delivery(f, 0));
    RunOfTwo(Fresh(c), Delivery(f, 0), Delivery(e, 0));
    hide Run, SnapshotOf;
    RevisionFirst(c, e, f);
    TombstoneFirst(c, e, f);
    TombstoneShows(Run(Fresh(c), [Delivery(e, 0), Delivery(f, 0)]), f.objectId);
    TombstoneShows(Run(Fresh(c), [Delivery(f, 0), Delivery(e, 0)]), f.objectId);
  }

  lemma TombstoneShows(st: PeerState, id: string)
    ensures id in st.memory.tombstones <==> id in SnapshotOf(st).events && SnapshotOf(st).events[id].Deleted?
  {
    var p := ProjectLive(SetOf(st.memory.revisions, id));
    assert p.Live?;
    hide ProjectLive;
  }

  lemma RevisionFirst(c: Config, e: Envelope, f: Envelope)
    requires c.expiry == map[] && IsFirst(c, e) && ValidRevision(e) && IsSecondTombstone(c, f, e)
    ensures Receive(Receive(Fresh(c), e, 0).st, f, 0).st.memory.tombstones == map[]
  {
  }

  lemma TombstoneFirst(c: Config, e: Envelope, f: Envelope)
    requires c.expiry == map[] && IsFirst(c, e) && ValidRevision(e) && IsSecondTombstone(c, f, e)
    ensures f.objectId in Receive(Receive(Fresh(c), f, 0).st, e, 0).st.memory.tombstones
  {
    assert f.objectId in Receive(Fresh(c), f, 0).st.memory.tombstones;
    hide Receive;
    ReceiveStaysDeleted(Receive(Fresh(c), f, 0).st, e, 0, f.objectId);
  }
}
