/** What one peer's state becomes: the specification of Peer.receive, _drain and _apply_semantics. */
module SyncTransitions {
  import opened SyncModel

  datatype Pending = Pending(envelope: Envelope, preapplied: bool, semanticApplied: bool, code: Code)

  /** Fixed when a peer is set up. */
  datatype Config = Config(spaceId: string, supported: set<int>, expiry: map<string, int>)

  /** The receive window. The nested dictionaries keyed by origin and then by sequence number are
      keyed by Slot; a digest is represented by the value it digests. */
  datatype Window = Window(
    cursors: map<string, nat>,
    recorded: map<Slot, Envelope>,
    pending: map<Slot, Pending>,
    quarantine: seq<Slot>)

  /** What _apply_semantics reads and writes. */
  datatype Memory = Memory(
    idempotency: map<string, Meaning>,
    revisions: map<string, set<Envelope>>,
    tombstones: map<string, set<Envelope>>,
    revoked: set<string>,
    security: set<SecurityReason>,
    audit: seq<AuditRecord>)

  datatype PeerState = PeerState(config: Config, window: Window, memory: Memory)

  function Fresh(config: Config): PeerState {
    PeerState(config, Window(map[], map[], map[], []), Memory(map[], map[], map[], {}, {}, []))
  }

  function Cursor(w: Window, device: string): nat {
    if device in w.cursors then w.cursors[device] else 0
  }

  function SetOf(m: map<string, set<Envelope>>, id: string): set<Envelope> {
    if id in m then m[id] else {}
  }

  function Add(m: map<string, set<Envelope>>, id: string, e: Envelope): map<string, set<Envelope>> {
    m[id := SetOf(m, id) + {e}]
  }

  function RecordOf(e: Envelope, code: Code): AuditRecord {
    AuditRecord(e.envelopeId, SlotOf(e), e.operation, e.objectType, e.objectId, code)
  }

  function Audited(m: Memory, e: Envelope, code: Code): Memory {
    m.(audit := m.audit + [RecordOf(e, code)])
  }

  function Flagged(m: Memory, reason: SecurityReason): Memory {
    m.(security := m.security + {reason})
  }

  datatype Effect = Effect(memory: Memory, applied: bool, code: Code)

  function Refuse(m: Memory, reason: SecurityReason, e: Envelope, code: Code): Effect {
    Effect(Audited(Flagged(m, reason), e, code), false, code)
  }

  /** _apply_semantics. */
  function ApplySemantics(c: Config, m: Memory, e: Envelope, now: int): Effect {
    if e.spaceId != c.spaceId then Refuse(m, SpaceDeniedReason(SlotOf(e)), e, SpaceDenied)
    else if e.device in m.revoked then Refuse(m, RevokedReason(e.device), e, DeviceRevoked)
    else if e.device in c.expiry && now > c.expiry[e.device] then
      Refuse(m, ExpiredReason(e.device), e, AuthorizationExpired)
    else if e.idempotencyKey in m.idempotency then
      if m.idempotency[e.idempotencyKey] == MeaningOf(e)
      then Effect(Audited(m, e, IdempotentReplay), false, IdempotentReplay)
      else Refuse(m, IdempotencyReason(e.idempotencyKey), e, IdempotencyConflict)
    else
      ApplyOperation(m.(idempotency := m.idempotency[e.idempotencyKey := MeaningOf(e)]), e)
  }

  /** The part of _apply_semantics after the idempotency record has been written. */
  function ApplyOperation(m: Memory, e: Envelope): Effect {
    if e.operation == Tombstone then
      Effect(Audited(m.(tombstones := Add(m.tombstones, e.objectId, e)), e, TombstoneApplied), true, TombstoneApplied)
    else if e.operation == GrantRevocation then
      var m1 := if RevokesDevice(e) then m.(revoked := m.revoked + {RevokedTarget(e)}) else m;
      Effect(Audited(m1, e, RevocationApplied), true, RevocationApplied)
    else if IsRevision(e) then
      if EventIdOf(e) in m.tombstones then
        Effect(Audited(m, e, TombstonePrecedence), false, TombstonePrecedence)
      else if e.payload.changes == map[] then
        Refuse(m, InvalidRevisionReason(e.envelopeId), e, InvalidRevisionPayload)
      else
        Effect(Audited(m.(revisions := Add(m.revisions, EventIdOf(e), e)), e, RevisionApplied), true, RevisionApplied)
    else
      Effect(Audited(m, e, AcceptedNoProjection), true, AcceptedNoProjection)
  }

  function Next(w: Window, device: string): Slot { Slot(device, Cursor(w, device) + 1) }

  function Advance(w: Window, device: string, number: nat): Window {
    w.(cursors := w.cursors[device := number])
  }

  /** One turn of the _drain loop, for the pending entry right after the cursor. */
  function DrainStep(st: PeerState, device: string, now: int): (r: PeerState)
    requires Next(st.window, device) in st.window.pending
    ensures |r.window.pending| < |st.window.pending|
  {
    var next := Next(st.window, device);
    var p := st.window.pending[next];
    var popped := st.window.(pending := st.window.pending - {next});
    assert st.window.pending.Keys == popped.pending.Keys + {next};
    var memory := if p.preapplied then st.memory else ApplySemantics(st.config, st.memory, p.envelope, now).memory;
    PeerState(st.config, Advance(popped, device, next.number), memory)
  }

  /** _drain. */
  function Drain(st: PeerState, device: string, now: int): PeerState
    decreases |st.window.pending|
  {
    if Next(st.window, device) in st.window.pending
    then Drain(DrainStep(st, device, now), device, now)
    else st
  }

  datatype Received = Received(st: PeerState, receipt: Receipt)

  function Answer(st: PeerState, e: Envelope, status: Status, code: Code, applied: bool): Received {
    Received(st, Receipt(SlotOf(e), status, code, Cursor(st.window, e.device), applied))
  }

  /** receive. */
  function Receive(st: PeerState, e: Envelope, now: int): Received {
    var slot := SlotOf(e);
    if e.spaceId != st.config.spaceId then
      Answer(st.(memory := Refuse(st.memory, SpaceDeniedReason(slot), e, SpaceDenied).memory),
             e, Rejected, SpaceDenied, false)
    else if slot in st.window.recorded then
      if st.window.recorded[slot] != e then
        Answer(st.(memory := Flagged(st.memory, CollisionReason(slot))), e, Rejected, ReplaySequenceCollision, false)
      else
        Answer(st, e, Duplicate, DuplicateEnvelope, false)
    else
      ReceiveNew(st, e, now)
  }

  /** receive, once the envelope is known to fill an unused slot of this peer's space. */
  function ReceiveNew(st: PeerState, e: Envelope, now: int): Received {
    var slot := SlotOf(e);
    var expected := Cursor(st.window, e.device) + 1;
    var w := st.window.(recorded := st.window.recorded[slot := e]);
    if e.schemaVersion !in st.config.supported then
      Answer(st.(window := w.(quarantine := w.quarantine + [slot])), e, Quarantined, SchemaUnsupported, false)
    else if e.sequence < expected then
      Answer(PeerState(st.config, w, Flagged(st.memory, StaleReason(slot))), e, Rejected, ReplayStaleSequence, false)
    else if e.sequence > expected then
      if IsPriority(e) then
        var eff := ApplySemantics(st.config, st.memory, e, now);
        var w1 := w.(pending := w.pending[slot := Pending(e, true, eff.applied, eff.code)]);
        Answer(PeerState(st.config, w1, eff.memory), e,
               if eff.applied then PriorityAppliedWithGap else RejectedWithGap,
               if eff.applied then SyncSequenceGap else eff.code,
               eff.applied)
      else
        var w1 := w.(pending := w.pending[slot := Pending(e, false, false, SyncSequenceGap)]);
        Answer(st.(window := w1), e, PendingGap, SyncSequenceGap, false)
    else
      var eff := ApplySemantics(st.config, st.memory, e, now);
      var st1 := Drain(PeerState(st.config, Advance(w, e.device, e.sequence), eff.memory), e.device, now);
      Answer(st1, e, if eff.applied then Applied else Rejected, eff.code, eff.applied)
  }

  datatype Delivery = Delivery(envelope: Envelope, tick: int)

  /** Any number of deliveries, the last one at the end. */
  function Run(st: PeerState, ds: seq<Delivery>): PeerState {
    if ds == [] then st
    else
      var d := ds[|ds| - 1];
      Receive(Run(st, ds[..|ds| - 1]), d.envelope, d.tick).st
  }
}
