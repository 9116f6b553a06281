/** The peer object of simulator.py: it updates its tables in place, and every method is tied to the
    transition functions. */
module SyncPeer {
  import opened Json
  import opened SyncModel
  import opened SyncTransitions
  import opened SyncProjection
  import opened SyncConvergence

  function Decimal(n: nat): string {
    var last := [('0' as int + n % 10) as char];
    if n < 10 then last else Decimal(n / 10) + last
  }

  function Padded(n: nat, width: nat): string {
    var digits := Decimal(n);
    seq(if |digits| < width then width - |digits| else 0, _ => '0') + digits
  }

  /** Seconds from the epoch to 2026-01-01T00:00:00Z, the base of emitted creation times. */
  const EMISSION_BASE: int := 1767225600

  /** The envelope emit builds for a sequence number, before its constructor checks it. */
  function Emitted(peerId: string, spaceId: string, number: nat, operation: Operation, objectType: string,
                   objectId: string, payload: Payload, base: Option<int>, key: Option<string>, schema: int): RawEnvelope
  {
    RawEnvelope(schema, "syn_" + peerId + "_" + Padded(number, 6), spaceId, peerId, number, operation, objectType,
                objectId, if key.Some? && key.value != "" then key.value else "idem_" + peerId + "_" + Padded(number, 8),
                EMISSION_BASE + number, payload, base)
  }

  class Peer {
    const peerId: string
    const spaceId: string
    const supported: set<int>
    var nextSequence: nat
    var outbox: seq<Envelope>
    var cursors: map<string, nat>
    var recorded: map<Slot, Envelope>
    var pending: map<Slot, Pending>
    var idempotency: map<string, Meaning>
    var revisions: map<string, set<Envelope>>
    var tombstones: map<string, set<Envelope>>
    var revokedDevices: set<string>
    var authorizationExpiry: map<string, int>
    var quarantine: seq<Slot>
    var securityReasons: set<SecurityReason>
    var audit: seq<AuditRecord>

    ghost function State(): PeerState
      reads this
    {
      PeerState(Config(spaceId, supported, authorizationExpiry),
                Window(cursors, recorded, pending, quarantine),
                Memory(idempotency, revisions, tombstones, revokedDevices, securityReasons, audit))
    }

    constructor (peerId: string, spaceId: string, supported: set<int>)
      ensures this.peerId == peerId && this.spaceId == spaceId && this.supported == supported
      ensures State() == Fresh(Config(spaceId, supported, map[]))
      ensures nextSequence == 1 && outbox == []
    {
      this.peerId, this.spaceId, this.supported := peerId, spaceId, supported;
      nextSequence, outbox := 1, [];
      cursors, recorded, pending, quarantine := map[], map[], map[], [];
      idempotency, revisions, tombstones := map[], map[], map[];
      revokedDevices, authorizationExpiry, securityReasons, audit := {}, map[], {}, [];
    }

    method SetAuthorizationExpiry(device: string, expiresAfter: int)
      modifies `authorizationExpiry
      ensures State() == old(State()).(config := old(State()).config.(expiry := old(authorizationExpiry)[device := expiresAfter]))
    {
      authorizationExpiry := authorizationExpiry[device := expiresAfter];
    }

    /** An own envelope takes the next number, even if its constructor then refuses it, and is received at once. */
    method Emit(operation: Operation, objectType: string, objectId: string, payload: Payload, base: Option<int>,
                key: Option<string>, schema: int, now: int) returns (r: Option<(Envelope, Receipt)>)
      modifies this
      ensures nextSequence == old(nextSequence) + 1
      ensures var raw := Emitted(peerId, spaceId, old(nextSequence), operation, objectType, objectId, payload, base, key, schema);
        if WellFormed(raw) then
          && r.Some? && r.value.0 == raw && outbox == old(outbox) + [raw]
          && Received(State(), r.value.1) == Receive(old(State()), raw, now)
        else
          r == None && outbox == old(outbox) && State() == old(State())
    {
      var raw := Emitted(peerId, spaceId, nextSequence, operation, objectType, objectId, payload, base, key, schema);
      nextSequence := nextSequence + 1;
      if !WellFormed(raw) {
        return None;
      }
      outbox := outbox + [raw];
      var receipt := ReceiveEnvelope(raw, now);
      r := Some((raw, receipt));
    }

    method ReceiveEnvelope(e: Envelope, now: int) returns (receipt: Receipt)
      modifies `cursors, `recorded, `pending, `quarantine, `idempotency, `revisions, `tombstones,
               `revokedDevices, `securityReasons, `audit
      ensures Received(State(), receipt) == Receive(old(State()), e, now)
    {
      var slot := SlotOf(e);
      if e.spaceId != spaceId {
        RecordSpaceDenial(e);
        return ReceiptOf(e, Rejected, SpaceDenied, false);
      }
      if slot in recorded {
        if recorded[slot] != e {
          securityReasons := securityReasons + {CollisionReason(slot)};
          return ReceiptOf(e, Rejected, ReplaySequenceCollision, false);
        }
        return ReceiptOf(e, Duplicate, DuplicateEnvelope, false);
      }
      var expected := CursorOf(e.device) + 1;
      recorded := recorded[slot := e];
      if e.schemaVersion !in supported {
        quarantine := quarantine + [slot];
        return ReceiptOf(e, Quarantined, SchemaUnsupported, false);
      }
      if e.sequence < expected {
        securityReasons := securityReasons + {StaleReason(slot)};
        return ReceiptOf(e, Rejected, ReplayStaleSequence, false);
      }
      if e.sequence > expected {
        if IsPriority(e) {
          var applied, code := Apply(e, now);
          pending := pending[slot := Pending(e, true, applied, code)];
          return ReceiptOf(e, if applied then PriorityAppliedWithGap else RejectedWithGap,
                           if applied then SyncSequenceGap else code, applied);
        }
        pending := pending[slot := Pending(e, false, false, SyncSequenceGap)];
        return ReceiptOf(e, PendingGap, SyncSequenceGap, false);
      }
      var applied, code := Apply(e, now);
      cursors := cursors[e.device := e.sequence];
      DrainPending(e.device, now);
      receipt := ReceiptOf(e, if applied then Applied else Rejected, code, applied);
    }

    function CursorOf(device: string): (r: nat)
      reads `cursors
    {
      if device in cursors then cursors[device] else 0
    }

    function ReceiptOf(e: Envelope, status: Status, code: Code, applied: bool): Receipt
      reads `cursors
    {
      Receipt(SlotOf(e), status, code, CursorOf(e.device), applied)
    }

    method DrainPending(device: string, now: int)
      modifies `cursors, `pending, `idempotency, `revisions, `tombstones, `revokedDevices, `securityReasons, `audit
      ensures State() == Drain(old(State()), device, now)
    {
      while Slot(device, CursorOf(device) + 1) in pending
        invariant Drain(State(), device, now) == Drain(old(State()), device, now)
        decreases |pending|
      {
        DrainOne(device, now);
      }
    }

    method DrainOne(device: string, now: int)
      requires Slot(device, CursorOf(device) + 1) in pending
      modifies `cursors, `pending, `idempotency, `revisions, `tombstones, `revokedDevices, `securityReasons, `audit
      ensures Next(old(State()).window, device) in old(State()).window.pending
      ensures State() == DrainStep(old(State()), device, now) && |pending| < |old(pending)|
    {
      var number := CursorOf(device) + 1;
      assert Slot(device, number) == Next(State().window, device);
      var entry := pending[Slot(device, number)];
      pending := pending - {Slot(device, number)};
      if !entry.preapplied {
        var _, _ := Apply(entry.envelope, now);
      }
      cursors := cursors[device := number];
    }

    method Apply(e: Envelope, now: int) returns (applied: bool, code: Code)
      modifies `idempotency, `revisions, `tombstones, `revokedDevices, `securityReasons, `audit
      ensures Effect(State().memory, applied, code) == ApplySemantics(old(State()).config, old(State()).memory, e, now)
    {
      if e.spaceId != spaceId {
        RecordSpaceDenial(e);
        return false, SpaceDenied;
      }
      if e.device in revokedDevices {
        securityReasons := securityReasons + {RevokedReason(e.device)};
        RecordAudit(e, DeviceRevoked);
        return false, DeviceRevoked;
      }
      if e.device in authorizationExpiry && now > authorizationExpiry[e.device] {
        securityReasons := securityReasons + {ExpiredReason(e.device)};
        RecordAudit(e, AuthorizationExpired);
        return false, AuthorizationExpired;
      }
      if e.idempotencyKey in idempotency {
        if idempotency[e.idempotencyKey] == MeaningOf(e) {
          RecordAudit(e, IdempotentReplay);
          return false, IdempotentReplay;
        }
        securityReasons := securityReasons + {IdempotencyReason(e.idempotencyKey)};
        RecordAudit(e, IdempotencyConflict);
        return false, IdempotencyConflict;
      }
      idempotency := idempotency[e.idempotencyKey := MeaningOf(e)];
      applied, code := ApplyEffect(e);
    }

    method ApplyEffect(e: Envelope) returns (applied: bool, code: Code)
      modifies `revisions, `tombstones, `revokedDevices, `securityReasons, `audit
      ensures Effect(State().memory, applied, code) == ApplyOperation(old(State()).memory, e)
    {
      if e.operation == Tombstone {
        tombstones := Add(tombstones, e.objectId, e);
        RecordAudit(e, TombstoneApplied);
        return true, TombstoneApplied;
      }
      if e.operation == GrantRevocation {
        if RevokesDevice(e) {
          revokedDevices := revokedDevices + {RevokedTarget(e)};
        }
        RecordAudit(e, RevocationApplied);
        return true, RevocationApplied;
      }
      if IsRevision(e) {
        if EventIdOf(e) in tombstones {
          RecordAudit(e, TombstonePrecedence);
          return false, TombstonePrecedence;
        }
        if e.payload.changes == map[] {
          securityReasons := securityReasons + {InvalidRevisionReason(e.envelopeId)};
          RecordAudit(e, InvalidRevisionPayload);
          return false, InvalidRevisionPayload;
        }
        revisions := Add(revisions, EventIdOf(e), e);
        RecordAudit(e, RevisionApplied);
        return true, RevisionApplied;
      }
      RecordAudit(e, AcceptedNoProjection);
      return true, AcceptedNoProjection;
    }

    method RecordSpaceDenial(e: Envelope)
      modifies `securityReasons, `audit
      ensures securityReasons == old(securityReasons) + {SpaceDeniedReason(SlotOf(e))}
      ensures audit == old(audit) + [RecordOf(e, SpaceDenied)]
    {
      securityReasons := securityReasons + {SpaceDeniedReason(SlotOf(e))};
      RecordAudit(e, SpaceDenied);
    }

    method RecordAudit(e: Envelope, code: Code)
      modifies `audit
      ensures audit == old(audit) + [RecordOf(e, code)]
    {
      audit := audit + [RecordOf(e, code)];
    }

    /** state_snapshot, event by event. */
    method StateSnapshot() returns (s: Snapshot)
      ensures s == SnapshotOf(State())
    {
      var ids, events := revisions.Keys + tombstones.Keys, map[];
      var todo := ids;
      while todo != {}
        invariant todo <= ids && events.Keys == ids - todo
        invariant forall id :: id in events ==> events[id] == ProjectEvent(State().memory, id)
        decreases todo
      {
        var id :| id in todo;
        var p: Projection;
        if id in tombstones {
          p := Deleted(|tombstones[id]|);
        } else {
          p := ProjectRevisions(SetOf(revisions, id));
        }
        events, todo := events[id := p], todo - {id};
      }
      s := Snapshot(spaceId, events, revokedDevices);
    }
  }

  /** The revisions of one event by base revision. */
  method GroupByBase(rs: set<Envelope>) returns (grouped: map<nat, set<Envelope>>)
    ensures grouped.Keys == Bases(rs)
    ensures forall b :: b in grouped ==> grouped[b] == AtBase(rs, b)
  {
    grouped := map[];
    var todo := rs;
    while todo != {}
      invariant todo <= rs
      invariant grouped.Keys == Bases(rs - todo)
      invariant forall b :: b in grouped ==> grouped[b] == AtBase(rs - todo, b)
      decreases todo
    {
      var e :| e in todo;
      assert rs - (todo - {e}) == (rs - todo) + {e};
      assert forall b: nat :: AtBase((rs - todo) + {e}, b) == AtBase(rs - todo, b) + if b == BaseOf(e) then {e} else {};
      assert BaseOf(e) !in grouped ==> AtBase(rs - todo, BaseOf(e)) == {};
      grouped := grouped[BaseOf(e) := (if BaseOf(e) in grouped then grouped[BaseOf(e)] else {}) + {e}];
      todo := todo - {e};
    }
    assert rs - todo == rs;
  }

  /** The alternatives proposed for one field, by value. */
  method AlternativesFor(rs: set<Envelope>, f: string) returns (alts: Alternatives)
    ensures alts.Keys == ValuesOf(rs, f)
    ensures forall v :: v in alts ==> alts[v] == Proposing(rs, f, v)
  {
    hide Proposing, ValuesOf;
    alts := map[];
    var todo := rs;
    NoProposals(f);
    assert rs - todo == {};
    while todo != {}
      invariant todo <= rs
      invariant alts.Keys == ValuesOf(rs - todo, f)
      invariant forall v :: v in alts ==> alts[v] == Proposing(rs - todo, f, v)
      decreases todo
    {
      var e :| e in todo;
      ghost var done := rs - todo;
      assert rs - (todo - {e}) == done + {e};
      OneMoreProposal(done, e, f);
      if f in e.payload.changes {
        var v := e.payload.changes[f];
        alts := alts[v := (if v in alts then alts[v] else {}) + {e}];
      }
      todo := todo - {e};
    }
    assert rs - todo == rs;
  }

  lemma NoProposals(f: string)
    ensures ValuesOf({}, f) == {}
  {
  }

  lemma OneMoreProposal(done: set<Envelope>, e: Envelope, f: string)
    ensures forall w :: Proposing(done + {e}, f, w) == Proposing(done, f, w) + (if f in e.payload.changes && e.payload.changes[f] == w then {e} else {})
    ensures ValuesOf(done + {e}, f) == ValuesOf(done, f) + (if f in e.payload.changes then {e.payload.changes[f]} else {})
    ensures forall w :: w !in ValuesOf(done, f) ==> Proposing(done, f, w) == {}
  {
    assert Mentioning(done + {e}, f) == Mentioning(done, f) + if f in e.payload.changes then {e} else {};
  }

  /** The inner loop of _project_event: one gap-free base, field by field, in any order. */
  method MergeBase(rs: set<Envelope>, fields: map<string, Json>, conflicts: map<string, Alternatives>)
    returns (fields': map<string, Json>, conflicts': map<string, Alternatives>)
    ensures Layer(fields', conflicts') == Merge(Layer(fields, conflicts), ByField(rs))
  {
    hide Unanimous, TheValue;
    fields', conflicts' := fields, conflicts;
    ghost var l, alts, done := Layer(fields, conflicts), ByField(rs), {};
    var todo := FieldsOf(rs);
    while todo != {}
      invariant done + todo == alts.Keys && done !! todo
      invariant forall g :: MergedAt(l, Layer(fields', conflicts'), alts, done, g)
      decreases todo
    {
      var f :| f in todo;
      var a := AlternativesFor(rs, f);
      assert a == alts[f];
      ghost var before := Layer(fields', conflicts');
      fields', conflicts' := MergeOneField(fields', conflicts', f, a);
      OneMoreMerged(l, before, Layer(fields', conflicts'), alts, done, f);
      todo, done := todo - {f}, done + {f};
    }
    assert done == alts.Keys;
    MergedEverywhere(l, Layer(fields', conflicts'), alts);
  }

  lemma OneMoreMerged(l: Layer, before: Layer, after: Layer, alts: map<string, Alternatives>, done: set<string>, f: string)
    requires f in alts && f !in done && forall g :: MergedAt(l, before, alts, done, g)
    requires if Unanimous(alts[f]) then
               after.fields == before.fields[f := TheValue(alts[f])] && after.conflicts == before.conflicts - {f}
             else after.fields == before.fields && after.conflicts == before.conflicts[f := alts[f]]
    ensures forall g :: MergedAt(l, after, alts, done + {f}, g)
  {
    hide Unanimous, TheValue;
    forall g ensures MergedAt(l, after, alts, done + {f}, g) {
      assert MergedAt(l, before, alts, done, g);
    }
  }

  method MergeOneField(fields: map<string, Json>, conflicts: map<string, Alternatives>, f: string, a: Alternatives)
    returns (fields': map<string, Json>, conflicts': map<string, Alternatives>)
    ensures if Unanimous(a) then fields' == fields[f := TheValue(a)] && conflicts' == conflicts - {f}
            else fields' == fields && conflicts' == conflicts[f := a]
  {
    if |a| == 1 {
      var v :| v in a;
      OnlyElement(a.Keys, v);
      fields', conflicts' := fields[f := v], conflicts - {f};
    } else {
      fields', conflicts' := fields, conflicts[f := a];
    }
  }

  method Least(s: set<nat>) returns (least: nat)
    requires s != {}
    ensures least in s && forall b: nat :: b in s ==> least <= b
  {
    least :| least in s;
    var todo := s;
    ghost var done: set<nat> := {};
    while todo != {}
      invariant s == done + todo && least in s
      invariant forall b: nat :: b in done ==> least <= b
      decreases todo
    {
      var b :| b in todo;
      if b < least {
        least := b;
      }
      todo, done := todo - {b}, done + {b};
    }
  }

  /** The bases seen so far, in ascending order: a gap-free run of `current` bases, then gaps. */
  ghost predicate Scanned(bases: set<nat>, done: set<nat>, todo: set<nat>, gaps: set<nat>, current: nat) {
    && bases == done + todo && done !! todo
    && (forall b: nat :: b in done <==> b < current || b in gaps)
    && (forall b: nat :: b in gaps ==> b > current)
    && (gaps != {} ==> current !in todo)
    && (forall b: nat, d: nat :: b in todo && d in done ==> d < b)
  }

  lemma ScanOne(bases: set<nat>, done: set<nat>, todo: set<nat>, gaps: set<nat>, current: nat, b: nat)
    requires Scanned(bases, done, todo, gaps, current)
    requires b in todo && forall x: nat :: x in todo ==> b <= x
    ensures if b == current then Scanned(bases, done + {b}, todo - {b}, gaps, current + 1)
            else Scanned(bases, done + {b}, todo - {b}, gaps + {b}, current)
  {
    assert b >= current;
  }

  /** _project_event for an event without a tombstone: bases in ascending order, gaps set aside. */
  method ProjectRevisions(rs: set<Envelope>) returns (p: Projection)
    ensures p == ProjectLive(rs)
  {
    var grouped := GroupByBase(rs);
    var current: nat, fields, conflicts := 0, map[], map[];
    var gaps: set<nat> := {};
    var todo := grouped.Keys;
    ghost var done: set<nat> := {};
    while todo != {}
      invariant Scanned(Bases(rs), done, todo, gaps, current)
      invariant Layer(fields, conflicts) == Layered(rs, current)
      decreases todo
    {
      var b := Least(todo);
      ScanOne(Bases(rs), done, todo, gaps, current, b);
      if b != current {
        gaps := gaps + {b};
      } else {
        fields, conflicts := MergeBase(grouped[b], fields, conflicts);
        current := current + 1;
      }
      todo, done := todo - {b}, done + {b};
    }
    RevisionIsUnique(rs, current);
    p := Live(conflicts != map[], current, fields, conflicts, rs, gaps);
    assert gaps == set b | b in Bases(rs) && b > current;
  }

  lemma RevisionIsUnique(rs: set<Envelope>, n: nat)
    requires n !in Bases(rs) && forall b: nat :: b < n ==> b in Bases(rs)
    ensures Revision(rs) == n
  {
  }
}
