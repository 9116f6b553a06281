/** The delivery harness of simulator.py and the deletion proofs it reports. */
module SyncSimulator {
  import opened Json
  import opened SyncModel
  import opened SyncTransitions
  import opened SyncWindow
  import opened SyncTrace
  import opened SyncConvergence

  datatype SimState = SimState(
    peers: map<string, PeerState>,
    tick: int,
    offline: set<string>,
    queue: map<string, seq<Envelope>>,
    required: map<string, set<string>>,
    receipts: map<string, set<string>>)

  function Ids(m: map<string, set<string>>, target: string): set<string> {
    if target in m then m[target] else {}
  }

  /** _track_tombstone. */
  function Track(s: SimState, e: Envelope, peer: string, receipt: Receipt): SimState {
    if e.operation != Tombstone then s
    else
      var required := e.payload.requiredPeers.GetOr(s.peers.Keys);
      var s1 := s.(required := s.required[e.objectId := Ids(s.required, e.objectId) + required]);
      if receipt.semanticApplied || receipt.code == DuplicateEnvelope
      then s1.(receipts := s1.receipts[e.objectId := Ids(s1.receipts, e.objectId) + {peer}])
      else s1
  }

  /** A peer gets an envelope at the current tick: by delivery, or by emitting it. */
  function Hand(s: SimState, e: Envelope, peer: string): SimState
    requires peer in s.peers
  {
    var r := Receive(s.peers[peer], e, s.tick);
    Track(s.(peers := s.peers[peer := r.st]), e, peer, r.receipt)
  }

  function Enqueue(s: SimState, e: Envelope, peer: string): SimState {
    s.(queue := s.queue[peer := (if peer in s.queue then s.queue[peer] else []) + [e]])
  }

  /** deliver. */
  function Deliver(s: SimState, e: Envelope, peer: string): SimState
    requires peer in s.peers
  {
    var s1 := s.(tick := s.tick + 1);
    if peer in s1.offline then Enqueue(s1, e, peer) else Hand(s1, e, peer)
  }

  function DeliverAll(s: SimState, es: seq<Envelope>, peer: string): (r: SimState)
    requires peer in s.peers
    ensures r.peers.Keys == s.peers.Keys
  {
    if es == [] then s else Deliver(DeliverAll(s, es[..|es| - 1], peer), es[|es| - 1], peer)
  }

  function Reverse<T>(xs: seq<T>): (r: seq<T>)
    ensures |r| == |xs|
  {
    if xs == [] then [] else Reverse(xs[1..]) + [xs[0]]
  }

  function Queued(s: SimState, peer: string, reverse: bool): seq<Envelope> {
    var queued := if peer in s.queue then s.queue[peer] else [];
    if reverse then Reverse(queued) else queued
  }

  /** replay_offline for a peer that is back online. */
  function Replay(s: SimState, peer: string, reverse: bool): SimState
    requires peer in s.peers
  {
    DeliverAll(s.(queue := s.queue - {peer}), Queued(s, peer, reverse), peer)
  }

  /** One action of a run; `Emit` carries the envelope the peer built. */
  datatype Action =
    | Emit(e: Envelope, peer: string)
    | Send(e: Envelope, peer: string)
    | GoOnline(peer: string)
    | GoOffline(peer: string)
    | ReplayQueue(peer: string, reverse: bool)

  function Act(s: SimState, a: Action): SimState {
    match a
    case Emit(e, p) => if p in s.peers then Hand(s.(tick := s.tick + 1), e, p) else s
    case Send(e, p) => if p in s.peers then Deliver(s, e, p) else s
    case GoOnline(p) => s.(offline := s.offline - {p})
    case GoOffline(p) => s.(offline := s.offline + {p})
    case ReplayQueue(p, reverse) => if p in s.peers && p !in s.offline then Replay(s, p, reverse) else s
  }

  function RunActions(s: SimState, actions: seq<Action>): SimState {
    if actions == [] then s else Act(RunActions(s, actions[..|actions| - 1]), actions[|actions| - 1])
  }

  function Start(ids: set<string>, c: Config): SimState {
    SimState(map id | id in ids :: Fresh(c), 0, {}, map[], map[], map[])
  }

  /** A deletion proof of evaluate: nobody required is missing from the receipts. */
  predicate ProofComplete(s: SimState, target: string) {
    target in s.required && s.required[target] <= Ids(s.receipts, target)
  }

  // ---- what a credited receipt says ----

  /** The peer recorded a tombstone for the target in slot t. */
  predicate RecordedTombstone(st: PeerState, target: string, t: Slot) {
    t in st.window.recorded && st.window.recorded[t].operation == Tombstone && st.window.recorded[t].objectId == target
  }

  /** The tombstone in slot t was quarantined, or _apply_semantics refused it. */
  ghost predicate TurnedDown(st: PeerState, t: Slot) {
    t in st.window.quarantine ||
    exists i :: CallAt(st.memory.audit, i, t) && st.memory.audit[i].code != TombstoneApplied
  }

  predicate AppliedRecord(a: AuditRecord, target: string) {
    a.code == TombstoneApplied && a.operation == Tombstone && a.objectId == target
  }

  /** An event is tombstoned iff the audit log has an applied tombstone for it. */
  ghost predicate AuditedTombstones(m: Memory) {
    forall id :: id in m.tombstones <==> exists i :: 0 <= i < |m.audit| && AppliedRecord(m.audit[i], id)
  }

  lemma AppendAudited(m: Memory, r: Memory, e: Envelope, code: Code)
    requires AuditedTombstones(m) && r.audit == m.audit + [RecordOf(e, code)]
    requires code == TombstoneApplied ==> e.operation == Tombstone
    requires r.tombstones.Keys == m.tombstones.Keys + if code == TombstoneApplied then {e.objectId} else {}
    ensures AuditedTombstones(r)
  {
    forall id ensures id in r.tombstones <==> exists i :: 0 <= i < |r.audit| && AppliedRecord(r.audit[i], id) {
      if id in m.tombstones {
        var i :| 0 <= i < |m.audit| && AppliedRecord(m.audit[i], id);
        assert AppliedRecord(r.audit[i], id);
      } else if id in r.tombstones {
        assert AppliedRecord(r.audit[|m.audit|], id);
      } else if i :| 0 <= i < |r.audit| && AppliedRecord(r.audit[i], id) {
        assert i < |m.audit| ==> r.audit[i] == m.audit[i];
      }
    }
  }

  lemma ApplyAudited(c: Config, m: Memory, e: Envelope, now: int)
    requires AuditedTombstones(m)
    ensures AuditedTombstones(ApplySemantics(c, m, e, now).memory)
  {
    var r := ApplySemantics(c, m, e, now);
    ApplyWritesOneRecord(c, m, e, now);
    OperationParts(m.(idempotency := m.idempotency[e.idempotencyKey := MeaningOf(e)]), e);
    AppendAudited(m, r.memory, e, r.code);
  }

  lemma {:induction false} DrainAudited(st: PeerState, device: string, now: int)
    requires AuditedTombstones(st.memory)
    ensures AuditedTombstones(Drain(st, device, now).memory)
    decreases |st.window.pending|
  {
    var next := Next(st.window, device);
    if next in st.window.pending {
      ApplyAudited(st.config, st.memory, st.window.pending[next].envelope, now);
      DrainAudited(DrainStep(st, device, now), device, now);
    }
  }

  /** Everything the harness relies on about one peer. */
  ghost predicate PeerInv(st: PeerState) {
    WindowInv(st) && TraceInv(st) && AuditedTombstones(st.memory)
  }

  lemma ReceiveAudited(st: PeerState, e: Envelope, now: int)
    requires WindowInv(st) && AuditedTombstones(st.memory)
    ensures AuditedTombstones(Receive(st, e, now).st.memory)
  {
    var eff := ApplySemantics(st.config, st.memory, e, now);
    ApplyAudited(st.config, st.memory, e, now);
    if e.spaceId != st.config.spaceId {
      AppendAudited(st.memory, Receive(st, e, now).st.memory, e, SpaceDenied);
    } else if SlotOf(e) !in st.window.recorded {
      NewOutcomes(st, e, now);
      if SlotOf(e) == Next(st.window, e.device) && e.schemaVersion in st.config.supported {
        DrainAudited(PeerState(st.config, InOrder(st.window, e), eff.memory), e.device, now);
      }
    }
  }

  lemma ReceiveKeepsPeerInv(st: PeerState, e: Envelope, now: int)
    requires PeerInv(st)
    ensures PeerInv(Receive(st, e, now).st)
  {
    ReceiveKeepsWindow(st, e, now);
    ReceiveKeepsTrace(st, e, now);
    ReceiveAudited(st, e, now);
  }

  ghost predicate RecordedSome(st: PeerState, target: string) {
    exists t :: RecordedTombstone(st, target, t)
  }

  ghost predicate CreditOk(s: SimState, target: string, p: string) {
    p in Ids(s.receipts, target) ==> p in s.peers && RecordedSome(s.peers[p], target)
  }

  /** Only peers that recorded a tombstone for a target are credited with it. */
  ghost predicate SimInv(s: SimState) {
    && (forall p :: p in s.peers ==> PeerInv(s.peers[p]))
    && (forall target, p :: CreditOk(s, target, p))
  }

  /** A receipt that leads to credit is about a recorded envelope. */
  lemma CreditedIsRecorded(st: PeerState, e: Envelope, now: int)
    requires WindowInv(st)
    requires var r := Receive(st, e, now).receipt; r.semanticApplied || r.code == DuplicateEnvelope
    ensures var w := Receive(st, e, now).st.window; SlotOf(e) in w.recorded && w.recorded[SlotOf(e)] == e
  {
    ReceiveKeepsWindow(st, e, now);
    ApplyWritesOneRecord(st.config, st.memory, e, now);
  }

  lemma HandKeepsCredit(s: SimState, e: Envelope, peer: string, target: string, p: string)
    requires peer in s.peers && WindowInv(s.peers[peer]) && CreditOk(s, target, p)
    ensures CreditOk(Hand(s, e, peer), target, p)
  {
    var st, s1 := s.peers[peer], Hand(s, e, peer);
    ReceiveKeepsWindow(st, e, s.tick);
    if p in Ids(s.receipts, target) {
      var t :| RecordedTombstone(s.peers[p], target, t);
      assert RecordedTombstone(s1.peers[p], target, t);
    } else if p in Ids(s1.receipts, target) {
      CreditedIsRecorded(st, e, s.tick);
      assert RecordedTombstone(s1.peers[p], target, SlotOf(e));
    }
  }

  lemma HandKeepsInv(s: SimState, e: Envelope, peer: string)
    requires SimInv(s) && peer in s.peers
    ensures SimInv(Hand(s, e, peer)) && Hand(s, e, peer).peers.Keys == s.peers.Keys
  {
    var s1 := Hand(s, e, peer);
    assert s1.peers == s.peers[peer := Receive(s.peers[peer], e, s.tick).st];
    ReceiveKeepsPeerInv(s.peers[peer], e, s.tick);
    forall target, p ensures CreditOk(s1, target, p) {
      assert CreditOk(s, target, p);
      HandKeepsCredit(s, e, peer, target, p);
    }
  }

  /** Clock, queues and connectivity do not enter the invariant. */
  lemma OnlyPeersAndReceipts(s: SimState, s1: SimState)
    requires SimInv(s) && s1.peers == s.peers && s1.receipts == s.receipts
    ensures SimInv(s1)
  {
    forall target, p ensures CreditOk(s1, target, p) {
      assert CreditOk(s, target, p);
    }
  }

  lemma DeliverIs(s: SimState, e: Envelope, peer: string)
    requires peer in s.peers
    ensures var s1 := s.(tick := s.tick + 1);
      if peer in s.offline
      then Deliver(s, e, peer).peers == s.peers && Deliver(s, e, peer).receipts == s.receipts
      else Deliver(s, e, peer) == Hand(s1, e, peer)
  {
  }

  lemma DeliverKeepsInv(s: SimState, e: Envelope, peer: string)
    requires SimInv(s) && peer in s.peers
    ensures SimInv(Deliver(s, e, peer))
  {
    hide *;
    var s1 := s.(tick := s.tick + 1);
    DeliverIs(s, e, peer);
    OnlyPeersAndReceipts(s, s1);
    if peer in s.offline {
      OnlyPeersAndReceipts(s, Deliver(s, e, peer));
    } else {
      HandKeepsInv(s1, e, peer);
    }
  }

  lemma {:induction false} DeliverAllKeepsInv(s: SimState, es: seq<Envelope>, peer: string)
    requires SimInv(s) && peer in s.peers
    ensures SimInv(DeliverAll(s, es, peer))
  {
    if es != [] {
      DeliverAllKeepsInv(s, es[..|es| - 1], peer);
      DeliverKeepsInv(DeliverAll(s, es[..|es| - 1], peer), es[|es| - 1], peer);
    }
  }

  lemma ActKeepsInv(s: SimState, a: Action)
    requires SimInv(s)
    ensures SimInv(Act(s, a))
  {
    hide *;
    match a
    case Emit(e, p) =>
      var s1 := s.(tick := s.tick + 1);
      OnlyPeersAndReceipts(s, s1);
      if p in s.peers { HandKeepsInv(s1, e, p); }
      ActIs(s, a);
    case Send(e, p) =>
      if p in s.peers { DeliverKeepsInv(s, e, p); }
      ActIs(s, a);
    case ReplayQueue(p, reverse) =>
      var s1 := s.(queue := s.queue - {p});
      OnlyPeersAndReceipts(s, s1);
      if p in s.peers {
        DeliverAllKeepsInv(s1, Queued(s, p, reverse), p);
      }
      ActIs(s, a);
    case _ =>
      ActIs(s, a);
      OnlyPeersAndReceipts(s, Act(s, a));
  }

  /** Each action is a hand-over, a series of deliveries, or leaves peers and receipts alone. */
  lemma ActIs(s: SimState, a: Action)
    ensures match a
      case Emit(e, p) => Act(s, a) == if p in s.peers then Hand(s.(tick := s.tick + 1), e, p) else s
      case Send(e, p) => Act(s, a) == if p in s.peers then Deliver(s, e, p) else s
      case ReplayQueue(p, reverse) =>
        Act(s, a) == if p in s.peers && p !in s.offline
                     then DeliverAll(s.(queue := s.queue - {p}), Queued(s, p, reverse), p) else s
      case _ => Act(s, a).peers == s.peers && Act(s, a).receipts == s.receipts
  {
    hide Hand, Deliver, DeliverAll, Queued, Receive;
  }

  lemma {:induction false} RunKeepsInv(ids: set<string>, c: Config, actions: seq<Action>)
    ensures SimInv(RunActions(Start(ids, c), actions))
  {
    if actions == [] {
      RunKeepsTrace(c, []);
      assert Run(Fresh(c), []) == Fresh(c);
    } else {
      RunKeepsInv(ids, c, actions[..|actions| - 1]);
      ActKeepsInv(RunActions(Start(ids, c), actions[..|actions| - 1]), actions[|actions| - 1]);
    }
  }

  /** A recorded tombstone has deleted its target at this peer iff some such tombstone was not turned down. */
  lemma DeletedIffNotTurnedDown(st: PeerState, target: string)
    requires PeerInv(st)
    ensures target in st.memory.tombstones <==>
      exists t :: RecordedTombstone(st, target, t) && !TurnedDown(st, t)
  {
    var audit := st.memory.audit;
    if target in st.memory.tombstones {
      var i :| 0 <= i < |audit| && AppliedRecord(audit[i], target);
      var t := audit[i].slot;
      assert EntryOk(st.memory, st.window.recorded, Due(st.window), i);
      assert RecordedTombstone(st, target, t);
      forall j | CallAt(audit, j, t) ensures j == i {
        assert PairOk(st.memory, st.window.recorded, i, j) && PairOk(st.memory, st.window.recorded, j, i);
      }
      assert !TurnedDown(st, t);
    }
    if t :| RecordedTombstone(st, target, t) && !TurnedDown(st, t) {
      assert Place(st.config, st.window, t);
      assert t in Due(st.window) && Called(st.memory, t);
      var i :| CallAt(audit, i, t);
      assert EntryOk(st.memory, st.window.recorded, Due(st.window), i);
      assert AppliedRecord(audit[i], target);
    }
  }

  /** Deletion proofs. In every run, a required peer of a complete proof shows its target as deleted iff some
      tombstone it recorded for the target was neither quarantined nor refused. */
  lemma {:induction false} CompleteProofMeaning(ids: set<string>, c: Config, actions: seq<Action>, target: string, p: string)
    requires var s := RunActions(Start(ids, c), actions); ProofComplete(s, target) && p in s.required[target]
    ensures var s := RunActions(Start(ids, c), actions);
      && p in s.peers && RecordedSome(s.peers[p], target)
      && (ProjectEvent(s.peers[p].memory, target).Deleted? <==>
            exists t :: RecordedTombstone(s.peers[p], target, t) && !TurnedDown(s.peers[p], t))
  {
    RunKeepsInv(ids, c, actions);
    var s := RunActions(Start(ids, c), actions);
    assert CreditOk(s, target, p);
    DeletedIffNotTurnedDown(s.peers[p], target);
  }

  /** In particular a complete proof is sound if no required peer turned a tombstone down. */
  lemma CompleteProofIsSound(ids: set<string>, c: Config, actions: seq<Action>, target: string)
    requires var s := RunActions(Start(ids, c), actions);
      && ProofComplete(s, target)
      && forall p, t :: p in s.required[target] && p in s.peers && RecordedTombstone(s.peers[p], target, t) ==>
           !TurnedDown(s.peers[p], t)
    ensures var s := RunActions(Start(ids, c), actions);
      forall p :: p in s.required[target] ==> p in s.peers && ProjectEvent(s.peers[p].memory, target).Deleted?
  {
    var s := RunActions(Start(ids, c), actions);
    forall p | p in s.required[target]
      ensures p in s.peers && ProjectEvent(s.peers[p].memory, target).Deleted?
    {
      CompleteProofMeaning(ids, c, actions, target, p);
    }
  }

  /** The condition is needed: a quarantined tombstone that is delivered again completes the proof although
      the peer never deleted the target. */
  lemma DuplicateQuarantineCompletesProof(c: Config, p: string, e: Envelope)
    requires e.operation == Tombstone && e.spaceId == c.spaceId && e.schemaVersion !in c.supported
    requires e.payload.requiredPeers == Some({p})
    ensures var s := RunActions(Start({p}, c), [Send(e, p), Send(e, p)]);
      && ProofComplete(s, e.objectId) && p in s.required[e.objectId]
      && p in s.peers && e.objectId !in s.peers[p].memory.tombstones
  {
    var s0 := Start({p}, c);
    var both := [Send(e, p), Send(e, p)];
    assert both[..1] == [Send(e, p)] && both[..1][..0] == [];
    assert RunActions(s0, both[..1]) == Act(s0, Send(e, p));
    var first := Receive(Fresh(c), e, 1);
    assert first.receipt.code == SchemaUnsupported && !first.receipt.semanticApplied;
    var s1 := Act(s0, Send(e, p));
    assert s1.peers[p] == first.st;
    assert Receive(first.st, e, 2).receipt.code == DuplicateEnvelope;
  }
}
