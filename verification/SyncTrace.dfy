/** Exactly-once, in-order application. _apply_semantics writes one audit record per call, so the
    audit log, without the space denials written by receive itself, is the trace of its calls. */
module SyncTrace {
  import opened SyncModel
  import opened SyncTransitions
  import opened SyncWindow

  predicate IsCall(a: AuditRecord) { a.code != SpaceDenied }

  predicate CallAt(audit: seq<AuditRecord>, i: int, s: Slot) {
    0 <= i < |audit| && IsCall(audit[i]) && audit[i].slot == s
  }

  /** The call got past the idempotency check, so it used up the envelope's key. */
  predicate Consumes(code: Code) {
    code in {TombstoneApplied, RevocationApplied, TombstonePrecedence,
               InvalidRevisionPayload, RevisionApplied, AcceptedNoProjection}
  }

  /** The envelopes due for application: at or below the cursor, or priority ones waiting beyond a gap. */
  ghost function Due(w: Window): set<Slot> {
    set s | s in w.recorded && s !in w.quarantine &&
            (s.number <= Cursor(w, s.device) || IsPriority(w.recorded[s])) :: s
  }

  ghost predicate EntryOk(m: Memory, rec: map<Slot, Envelope>, due: set<Slot>, i: int) {
    0 <= i < |m.audit| && IsCall(m.audit[i]) ==>
      var s := m.audit[i].slot;
      && s in due && s in rec && m.audit[i].operation == rec[s].operation && m.audit[i].objectId == rec[s].objectId
      && (Consumes(m.audit[i].code) ==> rec[s].idempotencyKey in m.idempotency)
  }

  ghost predicate PairOk(m: Memory, rec: map<Slot, Envelope>, i: int, j: int) {
    0 <= i < j < |m.audit| && IsCall(m.audit[i]) && IsCall(m.audit[j]) ==>
      var s, t := m.audit[i].slot, m.audit[j].slot;
      && s != t && s in rec && t in rec
      && (s.device == t.device && !IsPriority(rec[s]) && !IsPriority(rec[t]) ==> s.number < t.number)
      && (Consumes(m.audit[i].code) && Consumes(m.audit[j].code) ==> rec[s].idempotencyKey != rec[t].idempotencyKey)
  }

  ghost predicate Called(m: Memory, s: Slot) {
    exists i :: CallAt(m.audit, i, s)
  }

  ghost predicate Traced(m: Memory, rec: map<Slot, Envelope>, due: set<Slot>) {
    && (forall i :: EntryOk(m, rec, due, i))
    && (forall i, j :: PairOk(m, rec, i, j))
    && (forall s :: s in due ==> s in rec && Called(m, s))
  }

  ghost predicate TraceInv(st: PeerState) {
    Traced(st.memory, st.window.recorded, Due(st.window))
  }

  /** One call of _apply_semantics writes exactly one record, with the code it returns, and takes the
      envelope's key only if that key was free. */
  lemma ApplyWritesOneRecord(c: Config, m: Memory, e: Envelope, now: int)
    ensures var r := ApplySemantics(c, m, e, now);
      && r.memory.audit == m.audit + [RecordOf(e, r.code)]
      && (r.code == SpaceDenied <==> e.spaceId != c.spaceId)
      && (Consumes(r.code) ==> e.idempotencyKey !in m.idempotency)
      && r.memory.idempotency.Keys == m.idempotency.Keys + if Consumes(r.code) then {e.idempotencyKey} else {}
  {
    if e.spaceId == c.spaceId && e.device !in m.revoked && e.idempotencyKey !in m.idempotency {
      var m1 := m.(idempotency := m.idempotency[e.idempotencyKey := MeaningOf(e)]);
      OperationWritesOneRecord(m1, e);
    }
  }

  lemma OperationWritesOneRecord(m: Memory, e: Envelope)
    ensures var r := ApplyOperation(m, e);
      r.memory.audit == m.audit + [RecordOf(e, r.code)] && Consumes(r.code) && r.memory.idempotency == m.idempotency
  {
  }

  lemma CallIsTraced(c: Config, m: Memory, rec: map<Slot, Envelope>, due: set<Slot>, e: Envelope, now: int)
    requires Traced(m, rec, due) && e.spaceId == c.spaceId
    requires SlotOf(e) in rec && rec[SlotOf(e)] == e && SlotOf(e) !in due
    requires !IsPriority(e) ==>
               forall s :: s in due && s.device == e.device && !IsPriority(rec[s]) ==> s.number < e.sequence
    ensures Traced(ApplySemantics(c, m, e, now).memory, rec, due + {SlotOf(e)})
  {
    ApplyWritesOneRecord(c, m, e, now);
    var r := ApplySemantics(c, m, e, now).memory;
    AppendIsTraced(m, r, ApplySemantics(c, m, e, now).code, rec, due, e);
  }

  lemma AppendIsTraced(m: Memory, r: Memory, code: Code, rec: map<Slot, Envelope>, due: set<Slot>, e: Envelope)
    requires Traced(m, rec, due) && r.audit == m.audit + [RecordOf(e, code)] && code != SpaceDenied
    requires SlotOf(e) in rec && rec[SlotOf(e)] == e && SlotOf(e) !in due
    requires !IsPriority(e) ==>
               forall s :: s in due && s.device == e.device && !IsPriority(rec[s]) ==> s.number < e.sequence
    requires Consumes(code) ==> e.idempotencyKey !in m.idempotency
    requires r.idempotency.Keys == m.idempotency.Keys + if Consumes(code) then {e.idempotencyKey} else {}
    ensures Traced(r, rec, due + {SlotOf(e)})
  {
    var n := |m.audit|;
    forall i ensures EntryOk(r, rec, due + {SlotOf(e)}, i) {
      assert EntryOk(m, rec, due, i);
    }
    forall i, j ensures PairOk(r, rec, i, j) {
      assert PairOk(m, rec, i, j);
      assert EntryOk(m, rec, due, i);
    }
    forall s | s in due + {SlotOf(e)} ensures s in rec && Called(r, s) {
      if s == SlotOf(e) {
        assert CallAt(r.audit, n, s);
      } else {
        var i :| CallAt(m.audit, i, s);
        assert CallAt(r.audit, i, s);
      }
    }
  }

  /** Recording one more slot does not disturb the trace. */
  lemma RecordingKeepsTraced(m: Memory, rec: map<Slot, Envelope>, due: set<Slot>, e: Envelope)
    requires Traced(m, rec, due) && SlotOf(e) !in rec
    ensures Traced(m, rec[SlotOf(e) := e], due)
  {
    var rec1 := rec[SlotOf(e) := e];
    forall i ensures EntryOk(m, rec1, due, i) {
      assert EntryOk(m, rec, due, i);
    }
    forall i, j ensures PairOk(m, rec1, i, j) {
      assert PairOk(m, rec, i, j);
    }
  }

  lemma DenialKeepsTraced(m: Memory, rec: map<Slot, Envelope>, due: set<Slot>, e: Envelope)
    requires Traced(m, rec, due)
    ensures Traced(Refuse(m, SpaceDeniedReason(SlotOf(e)), e, SpaceDenied).memory, rec, due)
  {
    var r := Refuse(m, SpaceDeniedReason(SlotOf(e)), e, SpaceDenied).memory;
    assert forall i :: 0 <= i < |m.audit| ==> r.audit[i] == m.audit[i];
    forall i ensures EntryOk(r, rec, due, i) {
      assert EntryOk(m, rec, due, i);
    }
    forall i, j ensures PairOk(r, rec, i, j) {
      assert PairOk(m, rec, i, j);
    }
    forall s | s in due ensures Called(r, s) {
      var i :| CallAt(m.audit, i, s);
      assert CallAt(r.audit, i, s);
    }
  }

  lemma FlagKeepsTraced(m: Memory, rec: map<Slot, Envelope>, due: set<Slot>, reason: SecurityReason)
    requires Traced(m, rec, due)
    ensures Traced(Flagged(m, reason), rec, due)
  {
    var r := Flagged(m, reason);
    assert forall i :: EntryOk(m, rec, due, i) ==> EntryOk(r, rec, due, i);
    assert forall i, j :: PairOk(m, rec, i, j) ==> PairOk(r, rec, i, j);
    forall s | s in due ensures Called(r, s) {
      var i :| CallAt(m.audit, i, s);
      assert CallAt(r.audit, i, s);
    }
  }

  lemma DueAfterDrainStep(st: PeerState, device: string, now: int)
    requires Placed(st.config, st.window) && Next(st.window, device) in st.window.pending
    ensures Due(DrainStep(st, device, now).window) == Due(st.window) + {Next(st.window, device)}
    ensures Next(st.window, device) in Due(st.window) <==> st.window.pending[Next(st.window, device)].preapplied
  {
    var w, r := st.window, DrainStep(st, device, now).window;
    var next := Next(w, device);
    assert Place(st.config, w, next);
    forall s ensures s in Due(r) <==> s in Due(w) || s == next {
      assert s.device == device && s.number == next.number ==> s == next;
    }
  }

  lemma DrainStepKeepsTrace(st: PeerState, device: string, now: int)
    requires Placed(st.config, st.window) && Next(st.window, device) in st.window.pending && TraceInv(st)
    ensures TraceInv(DrainStep(st, device, now))
  {
    var next := Next(st.window, device);
    var p := st.window.pending[next];
    assert Place(st.config, st.window, next);
    DueAfterDrainStep(st, device, now);
    if p.preapplied {
      assert Due(st.window) + {next} == Due(st.window);
    } else {
      CallIsTraced(st.config, st.memory, st.window.recorded, Due(st.window), p.envelope, now);
    }
  }

  lemma {:induction false} DrainKeepsTrace(st: PeerState, device: string, now: int)
    requires Placed(st.config, st.window) && SettledBut(st.window, device) && TraceInv(st)
    ensures TraceInv(Drain(st, device, now))
    decreases |st.window.pending|
  {
    if Next(st.window, device) in st.window.pending {
      DrainStepKeepsPlaced(st, device, now);
      DrainStepKeepsTrace(st, device, now);
      DrainKeepsTrace(DrainStep(st, device, now), device, now);
    }
  }

  lemma DueInOrder(c: Config, w: Window, e: Envelope)
    requires Placed(c, w) && IsNew(c, w, e) && SlotOf(e) == Next(w, e.device)
    ensures Due(InOrder(w, e)) == Due(w) + {SlotOf(e)}
  {
    forall s ensures s in Due(InOrder(w, e)) <==> s in Due(w) || s == SlotOf(e) {
      assert Place(c, w, s) && Place(c, w, SlotOf(e));
      assert s.device == e.device && s.number == e.sequence ==> s == SlotOf(e);
    }
  }

  lemma DueBeyondGap(c: Config, w: Window, e: Envelope, p: Pending)
    requires Placed(c, w) && IsNew(c, w, e) && e.sequence > Next(w, e.device).number
    ensures Due(BeyondGap(w, e, p)) == if IsPriority(e) then Due(w) + {SlotOf(e)} else Due(w)
  {
    assert Place(c, w, SlotOf(e));
  }

  lemma DueOfNew(c: Config, w: Window, e: Envelope, p: Pending)
    requires Placed(c, w) && IsNew(c, w, e)
    ensures e.schemaVersion !in c.supported ==> Due(Quarantining(w, e)) == Due(w)
    ensures SlotOf(e) == Next(w, e.device) ==> Due(InOrder(w, e)) == Due(w) + {SlotOf(e)}
    ensures e.sequence > Next(w, e.device).number ==>
              Due(BeyondGap(w, e, p)) == if IsPriority(e) then Due(w) + {SlotOf(e)} else Due(w)
  {
    if SlotOf(e) == Next(w, e.device) {
      DueInOrder(c, w, e);
    } else if e.sequence > Next(w, e.device).number {
      DueBeyondGap(c, w, e, p);
    }
    var q := Quarantining(w, e);
    forall s ensures s in Due(q) <==> s in Due(w) && (s != SlotOf(e)) {
      assert s in q.quarantine <==> s in w.quarantine || s == SlotOf(e);
    }
  }

  lemma ReceiveNewKeepsTrace(st: PeerState, e: Envelope, now: int)
    requires WindowInv(st) && TraceInv(st) && IsNew(st.config, st.window, e)
    ensures TraceInv(ReceiveNew(st, e, now).st)
  {
    var c, w, m := st.config, st.window, st.memory;
    var rec := w.recorded[SlotOf(e) := e];
    NewOutcomes(st, e, now);
    DueOfNew(c, w, e, GapEntry(st, e, now));
    RecordingKeepsTraced(m, w.recorded, Due(w), e);
    if e.schemaVersion in c.supported {
      if SlotOf(e) == Next(w, e.device) {
        CallIsTraced(c, m, rec, Due(w), e, now);
        InOrderPlaced(c, w, e);
        DrainKeepsTrace(PeerState(c, InOrder(w, e), ApplySemantics(c, m, e, now).memory), e.device, now);
      } else if IsPriority(e) {
        CallIsTraced(c, m, rec, Due(w), e, now);
      }
    }
  }

  lemma ReceiveKeepsTrace(st: PeerState, e: Envelope, now: int)
    requires WindowInv(st) && TraceInv(st)
    ensures TraceInv(Receive(st, e, now).st)
  {
    if e.spaceId != st.config.spaceId {
      DenialKeepsTraced(st.memory, st.window.recorded, Due(st.window), e);
    } else if SlotOf(e) in st.window.recorded {
      FlagKeepsTraced(st.memory, st.window.recorded, Due(st.window), CollisionReason(SlotOf(e)));
    } else {
      ReceiveNewKeepsTrace(st, e, now);
    }
  }

  lemma {:induction false} RunKeepsTrace(c: Config, ds: seq<Delivery>)
    ensures WindowInv(Run(Fresh(c), ds)) && TraceInv(Run(Fresh(c), ds))
  {
    RunKeepsWindow(c, ds);
    if ds != [] {
      var d := ds[|ds| - 1];
      RunKeepsWindow(c, ds[..|ds| - 1]);
      RunKeepsTrace(c, ds[..|ds| - 1]);
      ReceiveKeepsTrace(Run(Fresh(c), ds[..|ds| - 1]), d.envelope, d.tick);
    }
  }

  /** In every run a slot has been through _apply_semantics iff its number is at or below the cursor
      or it waits pre-applied in the gap buffer. */
  lemma AppliedIffDue(c: Config, ds: seq<Delivery>, s: Slot)
    ensures var st := Run(Fresh(c), ds);
      Called(st.memory, s) <==>
        || 1 <= s.number <= Cursor(st.window, s.device)
        || (s in st.window.pending && st.window.pending[s].preapplied)
  {
    RunKeepsTrace(c, ds);
    var st := Run(Fresh(c), ds);
    assert Place(st.config, st.window, s);
    if Called(st.memory, s) {
      var i :| CallAt(st.memory.audit, i, s);
      assert EntryOk(st.memory, st.window.recorded, Due(st.window), i);
    }
    if s in Due(st.window) {
      assert Called(st.memory, s);
    }
  }

  /** Two calls in one run concern different slots; calls for non-priority envelopes of one origin come
      in ascending order; no two calls use up the same idempotency key. */
  lemma CallsAreOnceAndInOrder(c: Config, ds: seq<Delivery>, i: int, j: int)
    requires var audit := Run(Fresh(c), ds).memory.audit;
      0 <= i < j < |audit| && IsCall(audit[i]) && IsCall(audit[j])
    ensures var st := Run(Fresh(c), ds);
      var a, b := st.memory.audit[i], st.memory.audit[j];
      && a.slot in st.window.recorded && b.slot in st.window.recorded
      && var e, f := st.window.recorded[a.slot], st.window.recorded[b.slot];
      && a.slot != b.slot
      && (e.device == f.device && !IsPriority(e) && !IsPriority(f) ==> e.sequence < f.sequence)
      && (Consumes(a.code) && Consumes(b.code) ==> e.idempotencyKey != f.idempotencyKey)
  {
    RunKeepsTrace(c, ds);
    var st := Run(Fresh(c), ds);
    assert PairOk(st.memory, st.window.recorded, i, j);
    assert Place(st.config, st.window, st.memory.audit[i].slot);
    assert Place(st.config, st.window, st.memory.audit[j].slot);
  }
}
