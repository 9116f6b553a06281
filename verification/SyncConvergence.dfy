/** Strong convergence: what a peer shows depends on the set of envelopes it was given, not on their order. */
module SyncConvergence {
  import opened SyncModel
  import opened SyncTransitions
  import opened SyncWindow
  import opened SyncTrace
  import opened SyncProjection

  /** _project_event: a tombstone hides everything else about the event. */
  ghost function ProjectEvent(m: Memory, id: string): Projection {
    if id in m.tombstones then Deleted(|m.tombstones[id]|) else ProjectLive(SetOf(m.revisions, id))
  }

  datatype Snapshot = Snapshot(spaceId: string, events: map<string, Projection>, revoked: set<string>)

  /** state_snapshot. */
  ghost function SnapshotOf(st: PeerState): Snapshot {
    var m := st.memory;
    Snapshot(st.config.spaceId,
             map id | id in m.revisions.Keys + m.tombstones.Keys :: ProjectEvent(m, id),
             m.revoked)
  }

  function TombstonesOf(applied: set<Envelope>, id: string): set<Envelope> {
    set e | e in applied && e.operation == Tombstone && e.objectId == id
  }

  function RevisionsOf(applied: set<Envelope>, id: string): set<Envelope> {
    set e | e in applied && IsRevision(e) && EventIdOf(e) == id && e.payload.changes != map[]
  }

  function RevocationsOf(applied: set<Envelope>): set<string> {
    set e | e in applied && RevokesDevice(e) :: RevokedTarget(e)
  }

  ghost predicate KeyOwned(applied: set<Envelope>, key: string) {
    exists e :: e in applied && e.idempotencyKey == key
  }

  ghost predicate EventOk(m: Memory, applied: set<Envelope>, id: string) {
    && SetOf(m.tombstones, id) == TombstonesOf(applied, id)
    && (id in m.tombstones ==> m.tombstones[id] != {})
    && (id in m.revisions ==> m.revisions[id] != {})
    && (id !in m.tombstones ==> SetOf(m.revisions, id) == RevisionsOf(applied, id))
  }

  /** Of the envelopes that share an idempotency key only the one with the least number takes effect. */
  ghost predicate TakesEffect(applied: set<Envelope>, e: Envelope) {
    forall f :: f in applied && f.idempotencyKey == e.idempotencyKey ==> e.sequence <= f.sequence
  }

  ghost function Effective(applied: set<Envelope>): set<Envelope> {
    set e | e in applied && TakesEffect(applied, e)
  }

  /** The memory is the one the effective envelopes determine, except for revisions hidden by a tombstone. */
  ghost predicate Shows(m: Memory, effective: set<Envelope>) {
    && m.revoked == RevocationsOf(effective)
    && (forall id :: EventOk(m, effective, id))
  }

  ghost predicate Determined(m: Memory, applied: set<Envelope>) {
    && (forall k :: k in m.idempotency <==> KeyOwned(applied, k))
    && Shows(m, Effective(applied))
  }

  /** The envelopes of the peer's own space in a series of deliveries. */
  ghost function Accepted(c: Config, ds: seq<Delivery>): set<Envelope> {
    set d | d in ds && d.envelope.spaceId == c.spaceId :: d.envelope
  }

  /** Two envelopes of one device that are applied in the order of their numbers, whenever they come. */
  predicate InOneOrder(e: Envelope, f: Envelope) {
    e.device == f.device && !IsPriority(e) && !IsPriority(f)
  }

  /** What the theorem asks of the envelopes: one per slot; among those of a supported schema, an idempotency key is
      shared only by ordinary envelopes of one device, and none comes from a device that one of them revokes. */
  ghost predicate Clean(c: Config, es: set<Envelope>) {
    && (forall e, f :: e in es && f in es && SlotOf(e) == SlotOf(f) ==> e == f)
    && (forall e, f :: e in es && f in es && e.schemaVersion in c.supported && f.schemaVersion in c.supported ==>
          && (e.idempotencyKey == f.idempotencyKey ==> e == f || InOneOrder(e, f))
          && (RevokesDevice(f) ==> RevokedTarget(f) != e.device))
  }

  predicate InTime(c: Config, device: string, tick: int) {
    device in c.expiry ==> tick <= c.expiry[device]
  }

  /** No delivery comes after its origin's authorization expired at this peer. */
  ghost predicate OnTime(c: Config, ds: seq<Delivery>) {
    forall d :: d in ds ==> InTime(c, d.envelope.device, d.tick)
  }

  ghost predicate Admissible(c: Config, es: set<Envelope>, applied: set<Envelope>, e: Envelope) {
    && Clean(c, es) && e in es && e !in applied && e.schemaVersion in c.supported && e.spaceId == c.spaceId
    && forall f :: f in applied ==> f in es && f.schemaVersion in c.supported && (InOneOrder(e, f) ==> f.sequence < e.sequence)
  }

  /** An admissible envelope meets no refusal, unless an earlier one of its device has its key. */
  lemma NoRefusal(c: Config, es: set<Envelope>, m: Memory, applied: set<Envelope>, e: Envelope, now: int)
    requires Admissible(c, es, applied, e) && Determined(m, applied) && InTime(c, e.device, now)
    ensures var r := ApplySemantics(c, m, e, now);
      if KeyOwned(applied, e.idempotencyKey) then
        && r.memory.idempotency == m.idempotency && r.memory.revoked == m.revoked
        && r.memory.tombstones == m.tombstones && r.memory.revisions == m.revisions
      else r == ApplyOperation(m.(idempotency := m.idempotency[e.idempotencyKey := MeaningOf(e)]), e)
  {
    assert e.device !in RevocationsOf(Effective(applied));
  }

  lemma EffectiveOneMore(c: Config, es: set<Envelope>, applied: set<Envelope>, e: Envelope)
    requires Admissible(c, es, applied, e)
    ensures Effective(applied + {e}) == if KeyOwned(applied, e.idempotencyKey) then Effective(applied) else Effective(applied) + {e}
  {
    var after := applied + {e};
    forall f | f in applied ensures TakesEffect(after, f) <==> TakesEffect(applied, f) {
      assert f.idempotencyKey == e.idempotencyKey ==> InOneOrder(e, f);
    }
    if f :| f in applied && f.idempotencyKey == e.idempotencyKey {
      assert InOneOrder(e, f) && f in after;
      assert !TakesEffect(after, e);
    }
  }

  /** What the operation itself does to the four parts of the memory that matter. */
  lemma OperationParts(m: Memory, e: Envelope)
    ensures var r := ApplyOperation(m, e).memory;
      && r.idempotency == m.idempotency
      && r.revoked == (if RevokesDevice(e) then m.revoked + {RevokedTarget(e)} else m.revoked)
      && r.tombstones == (if e.operation == Tombstone then Add(m.tombstones, e.objectId, e) else m.tombstones)
      && r.revisions ==
           if IsRevision(e) && EventIdOf(e) !in m.tombstones && e.payload.changes != map[]
           then Add(m.revisions, EventIdOf(e), e) else m.revisions
  {
  }

  lemma EventAfterApply(m: Memory, r: Memory, applied: set<Envelope>, e: Envelope, id: string)
    requires EventOk(m, applied, id)
    requires r.tombstones == (if e.operation == Tombstone then Add(m.tombstones, e.objectId, e) else m.tombstones)
    requires r.revisions ==
               if IsRevision(e) && EventIdOf(e) !in m.tombstones && e.payload.changes != map[]
               then Add(m.revisions, EventIdOf(e), e) else m.revisions
    ensures EventOk(r, applied + {e}, id)
  {
    var after := applied + {e};
    if e.operation == Tombstone && e.objectId == id {
      assert TombstonesOf(after, id) == TombstonesOf(applied, id) + {e};
      assert e in r.tombstones[id];
    } else {
      assert TombstonesOf(after, id) == TombstonesOf(applied, id);
    }
    if IsRevision(e) && EventIdOf(e) == id && e.payload.changes != map[] {
      assert RevisionsOf(after, id) == RevisionsOf(applied, id) + {e};
      if id !in m.tombstones {
        assert e in r.revisions[id];
      }
    } else {
      assert RevisionsOf(after, id) == RevisionsOf(applied, id);
    }
  }

  lemma OperationShows(m: Memory, effective: set<Envelope>, e: Envelope)
    requires Shows(m, effective)
    ensures Shows(ApplyOperation(m, e).memory, effective + {e})
  {
    OperationParts(m, e);
    var r, after := ApplyOperation(m, e).memory, effective + {e};
    forall id ensures EventOk(r, after, id) {
      assert EventOk(m, effective, id);
      EventAfterApply(m, r, effective, e, id);
    }
    assert RevocationsOf(after) ==
      if RevokesDevice(e) then RevocationsOf(effective) + {RevokedTarget(e)} else RevocationsOf(effective);
  }

  lemma KeysOneMore(applied: set<Envelope>, e: Envelope, k: string)
    ensures KeyOwned(applied + {e}, k) <==> KeyOwned(applied, k) || k == e.idempotencyKey
  {
    var after := applied + {e};
    assert e in after;
    if f :| f in applied && f.idempotencyKey == k {
      assert f in after;
    }
  }

  lemma SameParts(m: Memory, r: Memory, effective: set<Envelope>)
    requires Shows(m, effective) && r.revoked == m.revoked && r.tombstones == m.tombstones && r.revisions == m.revisions
    ensures Shows(r, effective)
  {
    forall id ensures EventOk(r, effective, id) { assert EventOk(m, effective, id); }
  }

  lemma ApplyIsDetermined(c: Config, es: set<Envelope>, m: Memory, applied: set<Envelope>, e: Envelope, now: int)
    requires Admissible(c, es, applied, e) && Determined(m, applied) && InTime(c, e.device, now)
    ensures Determined(ApplySemantics(c, m, e, now).memory, applied + {e})
  {
    NoRefusal(c, es, m, applied, e, now);
    EffectiveOneMore(c, es, applied, e);
    var r := ApplySemantics(c, m, e, now).memory;
    hide Shows, KeyOwned, Effective, ApplySemantics, Admissible;
    forall k ensures KeyOwned(applied + {e}, k) <==> KeyOwned(applied, k) || k == e.idempotencyKey { KeysOneMore(applied, e, k); }
    if KeyOwned(applied, e.idempotencyKey) {
      SameParts(m, r, Effective(applied));
    } else {
      var m1 := m.(idempotency := m.idempotency[e.idempotencyKey := MeaningOf(e)]);
      OperationParts(m1, e);
      SameParts(m, m1, Effective(applied));
      OperationShows(m1, Effective(applied), e);
    }
  }

  ghost function AppliedSet(w: Window): set<Envelope> {
    set s | s in Due(w) :: w.recorded[s]
  }

  ghost predicate RecordsOnly(w: Window, es: set<Envelope>) {
    forall s :: s in w.recorded ==> w.recorded[s] in es
  }

  lemma AppliedAreAdmissible(c: Config, w: Window, es: set<Envelope>, e: Envelope)
    requires Placed(c, w) && RecordsOnly(w, es) && Clean(c, es)
    requires e in es && e.schemaVersion in c.supported && e.spaceId == c.spaceId && SlotOf(e) !in Due(w)
    requires IsPriority(e) || SlotOf(e) == Next(w, e.device)
    ensures Admissible(c, es, AppliedSet(w), e)
  {
    forall f | f in AppliedSet(w)
      ensures f in es && f.schemaVersion in c.supported && SlotOf(f) in Due(w) && (InOneOrder(e, f) ==> f.sequence < e.sequence)
    {
      var s :| s in Due(w) && w.recorded[s] == f;
      assert Place(c, w, s);
    }
  }

  lemma DrainStepIsDetermined(st: PeerState, es: set<Envelope>, device: string, now: int)
    requires Placed(st.config, st.window) && Next(st.window, device) in st.window.pending
    requires RecordsOnly(st.window, es) && Clean(st.config, es) && InTime(st.config, device, now)
    requires Determined(st.memory, AppliedSet(st.window))
    ensures var r := DrainStep(st, device, now); Determined(r.memory, AppliedSet(r.window))
  {
    var c, w := st.config, st.window;
    var next := Next(w, device);
    assert Place(c, w, next);
    DueAfterDrainStep(st, device, now);
    var r := DrainStep(st, device, now);
    assert AppliedSet(r.window) == AppliedSet(w) + {w.recorded[next]};
    if w.pending[next].preapplied {
      assert AppliedSet(r.window) == AppliedSet(w);
    } else {
      AppliedAreAdmissible(c, w, es, w.recorded[next]);
      ApplyIsDetermined(c, es, st.memory, AppliedSet(w), w.recorded[next], now);
    }
  }

  lemma {:induction false} DrainIsDetermined(st: PeerState, es: set<Envelope>, device: string, now: int)
    requires Placed(st.config, st.window) && SettledBut(st.window, device)
    requires RecordsOnly(st.window, es) && Clean(st.config, es) && InTime(st.config, device, now)
    requires Determined(st.memory, AppliedSet(st.window))
    ensures var r := Drain(st, device, now); Determined(r.memory, AppliedSet(r.window))
    decreases |st.window.pending|
  {
    if Next(st.window, device) in st.window.pending {
      DrainStepKeepsPlaced(st, device, now);
      DrainStepIsDetermined(st, es, device, now);
      DrainIsDetermined(DrainStep(st, device, now), es, device, now);
    }
  }

  lemma AppliedAfterNew(c: Config, w: Window, e: Envelope, p: Pending)
    requires Placed(c, w) && Settled(w) && IsNew(c, w, e)
    ensures e.schemaVersion !in c.supported ==> AppliedSet(Quarantining(w, e)) == AppliedSet(w)
    ensures SlotOf(e) == Next(w, e.device) ==> AppliedSet(InOrder(w, e)) == AppliedSet(w) + {e}
    ensures e.sequence > Next(w, e.device).number ==>
      AppliedSet(BeyondGap(w, e, p)) == if IsPriority(e) then AppliedSet(w) + {e} else AppliedSet(w)
  {
    DueOfNew(c, w, e, p);
    DueIsRecorded(w);
    hide Due;
  }

  lemma DueIsRecorded(w: Window)
    ensures Due(w) <= w.recorded.Keys
  {
  }

  lemma ReceiveNewIsDetermined(st: PeerState, es: set<Envelope>, e: Envelope, now: int)
    requires WindowInv(st) && IsNew(st.config, st.window, e)
    requires RecordsOnly(st.window, es) && e in es && Clean(st.config, es) && InTime(st.config, e.device, now)
    requires Determined(st.memory, AppliedSet(st.window))
    ensures var r := ReceiveNew(st, e, now).st; Determined(r.memory, AppliedSet(r.window))
  {
    hide Clean, Determined, Admissible, AppliedSet, ApplySemantics, Drain, ReceiveNew;
    var c, w, m := st.config, st.window, st.memory;
    NewOutcomes(st, e, now);
    AppliedAfterNew(c, w, e, GapEntry(st, e, now));
    SlotIsNotDue(w, e);
    if e.schemaVersion in c.supported {
      if SlotOf(e) == Next(w, e.device) {
        AppliedAreAdmissible(c, w, es, e);
        ApplyIsDetermined(c, es, m, AppliedSet(w), e, now);
        InOrderPlaced(c, w, e);
        DrainIsDetermined(PeerState(c, InOrder(w, e), ApplySemantics(c, m, e, now).memory), es, e.device, now);
      } else if IsPriority(e) {
        AppliedAreAdmissible(c, w, es, e);
        ApplyIsDetermined(c, es, m, AppliedSet(w), e, now);
      }
    }
  }

  lemma SlotIsNotDue(w: Window, e: Envelope)
    requires SlotOf(e) !in w.recorded
    ensures SlotOf(e) !in Due(w)
  {
  }

  /** The peer has recorded exactly the envelopes of `es` and remembers what they determine. */
  ghost predicate Reflects(st: PeerState, es: set<Envelope>) {
    && WindowInv(st) && RecordsOnly(st.window, es)
    && (forall e :: e in es ==> SlotOf(e) in st.window.recorded && st.window.recorded[SlotOf(e)] == e)
    && Determined(st.memory, AppliedSet(st.window))
  }

  /** A slot already taken holds the same envelope, because there is one for each slot. */
  lemma RecordedAlready(st: PeerState, es: set<Envelope>, e: Envelope)
    requires Reflects(st, es) && Clean(st.config, es + {e}) && SlotOf(e) in st.window.recorded
    ensures st.window.recorded[SlotOf(e)] == e && es + {e} == es
  {
    assert Place(st.config, st.window, SlotOf(e));
    assert st.window.recorded[SlotOf(e)] in es + {e} && e in es + {e};
  }

  lemma ForeignReflects(st: PeerState, es: set<Envelope>, e: Envelope, now: int)
    requires Reflects(st, es) && e.spaceId != st.config.spaceId
    ensures Reflects(Receive(st, e, now).st, es)
  {
    hide Shows, AppliedSet, KeyOwned, Effective;
    SameParts(st.memory, Receive(st, e, now).st.memory, Effective(AppliedSet(st.window)));
  }

  lemma ReceiveReflects(st: PeerState, es: set<Envelope>, e: Envelope, now: int)
    requires Reflects(st, es)
    requires e.spaceId == st.config.spaceId ==> Clean(st.config, es + {e}) && InTime(st.config, e.device, now)
    ensures Reflects(Receive(st, e, now).st, if e.spaceId == st.config.spaceId then es + {e} else es)
  {
    hide Clean, Determined, AppliedSet, ReceiveNew, Placed, Settled;
    if e.spaceId != st.config.spaceId {
      ForeignReflects(st, es, e, now);
    } else if SlotOf(e) in st.window.recorded {
      RecordedAlready(st, es, e);
    } else {
      ReceiveKeepsWindow(st, e, now);
      ReceiveNewIsDetermined(st, es + {e}, e, now);
    }
  }

  lemma FreshReflects(c: Config)
    ensures Reflects(Fresh(c), {})
  {
    RunKeepsWindow(c, []);
    assert Run(Fresh(c), []) == Fresh(c);
    var w := Fresh(c).window;
    assert AppliedSet(w) == {} && Effective({}) == {};
    assert forall id :: EventOk(Fresh(c).memory, {}, id);
  }

  lemma AcceptedOneMore(c: Config, front: seq<Delivery>, d: Delivery)
    ensures Accepted(c, front + [d]) ==
      if d.envelope.spaceId == c.spaceId then Accepted(c, front) + {d.envelope} else Accepted(c, front)
  {
    assert forall x :: x in front + [d] <==> x in front || x == d;
  }

  lemma CleanSubset(c: Config, es: set<Envelope>, more: set<Envelope>)
    requires Clean(c, more) && es <= more
    ensures Clean(c, es)
  {
  }

  lemma {:induction false} RunReflects(c: Config, ds: seq<Delivery>)
    requires Clean(c, Accepted(c, ds)) && OnTime(c, ds)
    ensures Reflects(Run(Fresh(c), ds), Accepted(c, ds)) && Run(Fresh(c), ds).config == c
  {
    hide Reflects, Receive, Clean;
    RunKeepsWindow(c, ds);
    if ds == [] {
      FreshReflects(c);
      assert Accepted(c, []) == {};
    } else {
      var front, d := ds[..|ds| - 1], ds[|ds| - 1];
      assert ds == front + [d];
      AcceptedOneMore(c, front, d);
      CleanSubset(c, Accepted(c, front), Accepted(c, ds));
      RunReflects(c, front);
      ReceiveReflects(Run(Fresh(c), front), Accepted(c, front), d.envelope, d.tick);
    }
  }

  /** Two windows over the same records have the same cursors: each stands at the end of the
      longest run of supported numbers. */
  lemma CursorsAgree(c: Config, w1: Window, w2: Window, device: string)
    requires Placed(c, w1) && Settled(w1) && Placed(c, w2) && w1.recorded == w2.recorded
    ensures Cursor(w2, device) <= Cursor(w1, device)
  {
    var s := Next(w1, device);
    assert Place(c, w2, s) && Place(c, w1, s);
  }

  lemma SameRecordsSameApplied(c: Config, w1: Window, w2: Window)
    requires Placed(c, w1) && Settled(w1) && Placed(c, w2) && Settled(w2) && w1.recorded == w2.recorded
    ensures (forall device :: Cursor(w1, device) == Cursor(w2, device)) && AppliedSet(w1) == AppliedSet(w2)
  {
    forall device ensures Cursor(w1, device) == Cursor(w2, device) {
      CursorsAgree(c, w1, w2, device);
      CursorsAgree(c, w2, w1, device);
    }
    forall s ensures s in Due(w1) <==> s in Due(w2) {
      assert Place(c, w1, s) && Place(c, w2, s);
    }
    assert Due(w1) == Due(w2);
  }

  lemma SameAppliedSameEvent(m1: Memory, m2: Memory, applied: set<Envelope>, id: string)
    requires EventOk(m1, applied, id) && EventOk(m2, applied, id)
    ensures id in m1.revisions.Keys + m1.tombstones.Keys <==> id in m2.revisions.Keys + m2.tombstones.Keys
    ensures ProjectEvent(m1, id) == ProjectEvent(m2, id)
  {
    hide ProjectLive;
  }

  lemma SameAppliedSameSnapshot(st1: PeerState, st2: PeerState, applied: set<Envelope>)
    requires Determined(st1.memory, applied) && Determined(st2.memory, applied)
    requires st1.config.spaceId == st2.config.spaceId
    ensures SnapshotOf(st1) == SnapshotOf(st2)
  {
    hide ProjectEvent, EventOk;
    var m1, m2, effective := st1.memory, st2.memory, Effective(applied);
    forall id
      ensures id in m1.revisions.Keys + m1.tombstones.Keys <==> id in m2.revisions.Keys + m2.tombstones.Keys
      ensures ProjectEvent(m1, id) == ProjectEvent(m2, id)
    {
      assert EventOk(m1, effective, id) && EventOk(m2, effective, id);
      SameAppliedSameEvent(m1, m2, effective, id);
    }
  }

  /** Two peers of one configuration that reflect the same envelopes show the same. */
  lemma SameEnvelopesSameState(c: Config, st1: PeerState, st2: PeerState, es: set<Envelope>)
    requires Reflects(st1, es) && Reflects(st2, es) && st1.config == c && st2.config == c
    ensures (forall device :: Cursor(st1.window, device) == Cursor(st2.window, device))
    ensures SnapshotOf(st1) == SnapshotOf(st2)
  {
    hide Determined, SnapshotOf;
    var w1, w2 := st1.window, st2.window;
    forall s ensures s in w1.recorded <==> s in w2.recorded
             ensures s in w1.recorded ==> w1.recorded[s] == w2.recorded[s]
    {
      assert Place(c, w1, s) && Place(c, w2, s);
    }
    assert w1.recorded == w2.recorded;
    SameRecordsSameApplied(c, w1, w2);
    SameAppliedSameSnapshot(st1, st2, AppliedSet(w1));
  }

  /** Strong convergence. Two fresh peers of one configuration are given deliveries in any orders, with any
      duplicates and any foreign-space traffic in between. If the envelopes of their space are the same and
      clean, both end with the same cursors and the same snapshot. */
  lemma StrongConvergence(c: Config, ds1: seq<Delivery>, ds2: seq<Delivery>)
    requires Accepted(c, ds1) == Accepted(c, ds2) && Clean(c, Accepted(c, ds1))
    requires OnTime(c, ds1) && OnTime(c, ds2)
    ensures var st1, st2 := Run(Fresh(c), ds1), Run(Fresh(c), ds2);
      && (forall device :: Cursor(st1.window, device) == Cursor(st2.window, device))
      && SnapshotOf(st1) == SnapshotOf(st2)
  {
    hide *;
    RunReflects(c, ds1);
    RunReflects(c, ds2);
    SameEnvelopesSameState(c, Run(Fresh(c), ds1), Run(Fresh(c), ds2), Accepted(c, ds1));
  }

  /** What a peer that has not heard from e's device does with its first envelope. */
  lemma FirstOfDevice(st: PeerState, e: Envelope, now: int)
    requires WindowInv(st) && st.window.pending == map[] && Cursor(st.window, e.device) == 0
    requires e.spaceId == st.config.spaceId && e.sequence == 1 && SlotOf(e) !in st.window.recorded
    requires e.schemaVersion in st.config.supported
    ensures Receive(st, e, now).st ==
      PeerState(st.config, InOrder(st.window, e), ApplySemantics(st.config, st.memory, e, now).memory)
  {
    NewOutcomes(st, e, now);
  }

  predicate IsFirst(c: Config, e: Envelope) {
    e.spaceId == c.spaceId && e.sequence == 1 && e.schemaVersion in c.supported
  }

  lemma TwoFirst(c: Config, e: Envelope, f: Envelope)
    requires c.expiry == map[] && IsFirst(c, e) && IsFirst(c, f) && e.device != f.device
    ensures Run(Fresh(c), [Delivery(e, 0), Delivery(f, 0)]).memory ==
      ApplySemantics(c, ApplySemantics(c, Fresh(c).memory, e, 0).memory, f, 0).memory
  {
    var ds := [Delivery(e, 0), Delivery(f, 0)];
    assert ds[..1] == [Delivery(e, 0)] && ds[..1][..0] == [];
    RunKeepsWindow(c, []);
    RunKeepsWindow(c, ds[..1]);
    assert Run(Fresh(c), ds[..1]) == Receive(Fresh(c), e, 0).st;
    FirstOfDevice(Fresh(c), e, 0);
    FirstOfDevice(Receive(Fresh(c), e, 0).st, f, 0);
  }

  lemma Shown(st: PeerState, id: string)
    ensures id in SnapshotOf(st).events <==> id in st.memory.revisions || id in st.memory.tombstones
  {
  }

  predicate ValidRevision(e: Envelope) { IsRevision(e) && e.payload.changes != map[] }

  /** Without one envelope per idempotency key the order shows: of two revisions of different events that
      share a key, only the first to arrive is kept. */
  lemma SharedKeyDiverges(c: Config, e: Envelope, f: Envelope)
    requires c.expiry == map[] && IsFirst(c, e) && IsFirst(c, f) && e.device != f.device
    requires ValidRevision(e) && ValidRevision(f) && EventIdOf(e) != EventIdOf(f)
    requires e.idempotencyKey == f.idempotencyKey
    ensures SnapshotOf(Run(Fresh(c), [Delivery(e, 0), Delivery(f, 0)])) !=
            SnapshotOf(Run(Fresh(c), [Delivery(f, 0), Delivery(e, 0)]))
  {
    hide Run, SnapshotOf;
    TwoFirst(c, e, f);
    TwoFirst(c, f, e);
    FirstKeyWins(c, e, f);
    FirstKeyWins(c, f, e);
    Shown(Run(Fresh(c), [Delivery(e, 0), Delivery(f, 0)]), EventIdOf(e));
    Shown(Run(Fresh(c), [Delivery(f, 0), Delivery(e, 0)]), EventIdOf(e));
  }

  lemma FirstKeyWins(c: Config, e: Envelope, f: Envelope)
    requires c.expiry == map[] && IsFirst(c, e) && IsFirst(c, f) && e.idempotencyKey == f.idempotencyKey
    requires ValidRevision(e) && ValidRevision(f)
    ensures var m := ApplySemantics(c, ApplySemantics(c, Fresh(c).memory, e, 0).memory, f, 0).memory;
      m.revisions.Keys == {EventIdOf(e)} && m.tombstones == map[]
  {
  }

  /** With a device revocation among the envelopes the order shows too: a revision from the revoked device
      is kept only if it arrives before the revocation. */
  lemma RevocationDiverges(c: Config, e: Envelope, f: Envelope)
    requires c.expiry == map[] && IsFirst(c, e) && IsFirst(c, f) && e.device != f.device
    requires ValidRevision(e) && RevokesDevice(f) && RevokedTarget(f) == e.device
    requires e.idempotencyKey != f.idempotencyKey
    ensures SnapshotOf(Run(Fresh(c), [Delivery(e, 0), Delivery(f, 0)])) !=
            SnapshotOf(Run(Fresh(c), [Delivery(f, 0), Delivery(e, 0)]))
  {
    TwoFirst(c, e, f);
    TwoFirst(c, f, e);
    Shown(Run(Fresh(c), [Delivery(e, 0), Delivery(f, 0)]), EventIdOf(e));
    Shown(Run(Fresh(c), [Delivery(f, 0), Delivery(e, 0)]), EventIdOf(e));
  }
}
