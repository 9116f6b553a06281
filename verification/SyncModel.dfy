/** Envelopes, receipts and the observable records of the sync protocol (model.py). */
module SyncModel {
  import opened Json

  datatype Operation =
    | AppendRevision | StructuredUpsert | Tombstone | GrantRevocation | DeletionAck | RawManifest

  /** The payload keys a peer reads; `extra` is the rest of the mapping.
      An absent, non-mapping or empty `changes` entry is the empty map: the code treats the three alike. */
  datatype Payload = Payload(
    targetType: Option<string>,
    targetId: Option<string>,
    eventId: Option<string>,
    changes: map<string, Json>,
    requiredPeers: Option<set<string>>,
    extra: map<string, Json>)

  datatype RawEnvelope = RawEnvelope(
    schemaVersion: int,
    envelopeId: string,
    spaceId: string,
    device: string,
    sequence: int,
    operation: Operation,
    objectType: string,
    objectId: string,
    idempotencyKey: string,
    createdAt: int,
    payload: Payload,
    baseRevision: Option<int>)

  const EmptyPayload := Payload(None, None, None, map[], None, map[])

  /** The checks of Envelope.__post_init__. */
  predicate WellFormed(e: RawEnvelope) {
    && e.sequence >= 1
    && 8 <= |e.idempotencyKey| <= 128
    && e.envelopeId != "" && e.spaceId != "" && e.device != ""
    && e.objectType != "" && e.objectId != ""
    && (e.baseRevision.Some? ==> e.baseRevision.value >= 0)
  }

  type Envelope = e: RawEnvelope | WellFormed(e)
    witness RawEnvelope(1, "s", "s", "d", 1, DeletionAck, "t", "o", "idem_key", 0, EmptyPayload, None)

  /** What one (device, sequence) pair addresses. */
  datatype Slot = Slot(device: string, number: int)

  function SlotOf(e: Envelope): Slot { Slot(e.device, e.sequence) }

  predicate IsPriority(e: Envelope) {
    e.operation in {GrantRevocation, Tombstone, DeletionAck}
  }

  /** The fields idempotency_digest hashes; the hash itself is taken to be injective. */
  datatype Meaning = Meaning(
    spaceId: string, device: string, operation: Operation, objectType: string, objectId: string,
    baseRevision: Option<int>, payload: Payload)

  function MeaningOf(e: Envelope): Meaning {
    Meaning(e.spaceId, e.device, e.operation, e.objectType, e.objectId, e.baseRevision, e.payload)
  }

  predicate IsRevision(e: Envelope) { e.operation in {AppendRevision, StructuredUpsert} }

  function EventIdOf(e: Envelope): string { e.payload.eventId.GetOr(e.objectId) }

  function BaseOf(e: Envelope): nat { e.baseRevision.GetOr(0) }

  /** A grant revocation withdraws a device only for these two target types. */
  predicate RevokesDevice(e: Envelope) {
    e.operation == GrantRevocation &&
    e.payload.targetType.GetOr(e.objectType) in {"device", "device_grant"}
  }

  function RevokedTarget(e: Envelope): string { e.payload.targetId.GetOr(e.objectId) }

  datatype Code =
    | SpaceDenied | ReplaySequenceCollision | DuplicateEnvelope | SchemaUnsupported
    | ReplayStaleSequence | SyncSequenceGap | DeviceRevoked | AuthorizationExpired
    | IdempotentReplay | IdempotencyConflict | TombstoneApplied | RevocationApplied
    | TombstonePrecedence | InvalidRevisionPayload | RevisionApplied | AcceptedNoProjection | PeerOffline

  datatype Status =
    | Rejected | Duplicate | Quarantined | PriorityAppliedWithGap | RejectedWithGap
    | PendingGap | Applied | QueuedOffline

  /** Receipt without the peer id, which the holder knows. */
  datatype Receipt = Receipt(slot: Slot, status: Status, code: Code, cursor: int, semanticApplied: bool)

  datatype AuditRecord = AuditRecord(
    envelopeId: string, slot: Slot, operation: Operation, objectType: string, objectId: string, code: Code)

  datatype SecurityReason =
    | SpaceDeniedReason(slot: Slot)
    | CollisionReason(slot: Slot)
    | StaleReason(slot: Slot)
    | RevokedReason(device: string)
    | ExpiredReason(device: string)
    | IdempotencyReason(key: string)
    | InvalidRevisionReason(envelopeId: string)
}
