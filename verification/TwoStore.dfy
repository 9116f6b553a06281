/** Creating an event and appending a revision across two stores: prepared-operation records in the JSON control file and
    the idempotent commands of Core (core_store.py with the _command wrapper of core.py). */
module TwoStore {
  import opened Json

  type Id = nat

  /** What a caller asks for. All of it enters the payload hash of the operation, which is taken to be injective. */
  datatype Meaning =
    | NewEvent(owner: string, space: string, content: string, eventTime: Option<int>, eventType: string,
               evidenceState: string, factStatus: string, sensitivity: string)
    | NewRevision(owner: string, space: string, event: Id, content: string, evidenceState: string, factStatus: string)

  datatype Kind = Creating | Appending

  /** The slot of an operation: each of the two has its own for one client key. */
  datatype OpKey = OpKey(kind: Kind, key: string)

  function KindOf(m: Meaning): Kind { if m.NewEvent? then Creating else Appending }

  /** The values fixed when the operation is prepared; `base` is for revisions only. */
  datatype Effective = Effective(now: int, start: int, sensitivity: string, base: nat)

  datatype OpState = Prepared | RetryPending | Failed | Committed(result: Id)

  /** A reconciliation record; state and result are one field because they change together. */
  datatype Operation = Operation(meaning: Meaning, state: OpState, attempts: nat, effective: Effective)

  // ---- Core ----

  datatype Step = Contract | Capture | Observe | Effect

  /** The idempotency keys of the Core commands. Those of the evidence come from the client key alone. */
  datatype CommandKey =
    | ContractKey(owner: string, space: string) | CaptureKey(key: string) | ObserveKey(key: string) | EffectKey(op: OpKey)

  datatype Payload =
    | ContractPayload(owner: string, space: string)
    | SourcePayload(owner: string, space: string, content: string, start: int, sensitivity: string, now: int, key: string)
    | ObservationPayload(source: Id, space: string, content: string, start: int, evidenceState: string, now: int)
    | EventPayload(owner: string, space: string, eventType: string, start: int, title: string, description: string,
                   factStatus: string, sensitivity: string, now: int, observation: Id, evidenceState: string)
    | RevisionPayload(event: Id, base: nat, description: string, factStatus: string, observation: Id, evidenceState: string)

  datatype Record = Record(payload: Payload, result: Id)

  /** One revision of an event with what it was made from. */
  datatype Row = Row(id: Id, payload: Payload)

  /** Idempotency records, and the events with their revisions, the first under the event's own id; `nextId` is the id
      sequence. */
  datatype Core = Core(records: map<CommandKey, Record>, events: map<Id, seq<Row>>, nextId: Id)

  /** Control state in memory and on disk, and Core, whose transactions are durable as a whole. */
  datatype Sys = Sys(memory: map<OpKey, Operation>, disk: map<OpKey, Operation>, core: Core)

  const Empty := Sys(map[], map[], Core(map[], map[], 1))

  /** A text cut to its first characters. */
  function Clip(text: string, most: nat): string { if |text| <= most then text else text[..most] }

  predicate Exists(c: Core, event: Id) {
    event in c.events && c.events[event] != [] && c.events[event][0].payload.EventPayload? &&
    forall i :: 1 <= i < |c.events[event]| ==> c.events[event][i].payload.RevisionPayload?
  }

  /** The state of an event follows the fact status of its newest revision. */
  predicate IsActive(c: Core, event: Id)
    requires Exists(c, event)
  {
    var newest := c.events[event][|c.events[event]| - 1].payload;
    newest.factStatus != "conflict"
  }

  /** What append_revision asks of the event before anything else. */
  predicate Visible(c: Core, m: Meaning) {
    m.NewRevision? ==>
      && Exists(c, m.event) && IsActive(c, m.event)
      && c.events[m.event][0].payload.owner == m.owner && c.events[m.event][0].payload.space == m.space
  }

  function EffectiveOf(c: Core, m: Meaning, now: int): Effective
    requires Visible(c, m)
  {
    match m
    case NewEvent(_, _, _, time, _, _, _, sensitivity) => Effective(now, time.GetOr(now), sensitivity, 0)
    case NewRevision(_, _, event, _, _, _) =>
      var first := c.events[event][0].payload;
      Effective(now, first.start, first.sensitivity, |c.events[event]|)
  }

  /** What goes wrong in a Core command: SQLite is busy, or the command itself is refused. */
  datatype Fault = Busy | Refused

  /** One call of create_event or append_revision. After `writes` durable writes of this call (saves of the control file
      and Core commits) the next one does not happen: the process crashes and restarts from disk, or the write raises. */
  datatype Call = Call(key: string, meaning: Meaning, now: int, writes: nat, crash: bool, faults: map<Step, Fault>)
  {
    function Op(): OpKey { OpKey(KindOf(meaning), key) }
  }

  function KeyOf(call: Call, step: Step): CommandKey {
    match step
    case Contract => ContractKey(call.meaning.owner, call.meaning.space)
    case Capture => CaptureKey(call.key)
    case Observe => ObserveKey(call.key)
    case Effect => EffectKey(call.Op())
  }

  datatype Outcome =
    | Returned(result: Id)
    | NotVisible
    | KeyConflict
    | CoreConflict
    | RevisionConflict
    | PermanentlyFailed
    | StoreError
    | Interrupted

  /** Where a call stands: still going, with the durable writes it has left, or over. */
  datatype Progress = Going(sys: Sys, left: nat) | Over(sys: Sys, outcome: Outcome)

  function Stop(s: Sys, call: Call): Progress {
    Over(if call.crash then s.(memory := s.disk) else s, Interrupted)
  }

  function Put(s: Sys, o: OpKey, op: Operation): Sys { s.(memory := s.memory[o := op]) }

  /** control.save(). */
  function Save(s: Sys, left: nat, call: Call): Progress {
    if left == 0 then Stop(s, call) else Going(s.(disk := s.memory), left - 1)
  }

  /** Save and end the call. */
  function SaveAnd(s: Sys, left: nat, call: Call, outcome: Outcome): Progress {
    match Save(s, left, call)
    case Going(s1, _) => Over(s1, outcome)
    case Over(s1, o) => Over(s1, o)
  }

  /** _begin_operation, after the check that the event is visible. */
  function Begin(s: Sys, call: Call): Progress {
    if !Visible(s.core, call.meaning) then Over(s, NotVisible)
    else if call.Op() in s.memory then
      var op := s.memory[call.Op()];
      if op.meaning != call.meaning then Over(s, KeyConflict)
      else if op.state.Committed? then Over(s, Returned(op.state.result))
      else if op.state == Failed then Over(s, PermanentlyFailed)
      else Save(Put(s, call.Op(), op.(attempts := op.attempts + 1)), call.writes, call)
    else
      var op := Operation(call.meaning, Prepared, 0, EffectiveOf(s.core, call.meaning, call.now));
      match Save(Put(s, call.Op(), op), call.writes, call)
      case Over(s1, o) => Over(s1, o)
      case Going(s1, left) => Save(Put(s1, call.Op(), op.(attempts := 1)), left, call)
  }

  /** _record_core_failure, then the exception. */
  function RecordFailure(s: Sys, left: nat, call: Call, retryable: bool, outcome: Outcome): Progress
    requires call.Op() in s.memory
  {
    var op := s.memory[call.Op()];
    SaveAnd(Put(s, call.Op(), op.(state := if retryable then RetryPending else Failed)), left, call, outcome)
  }

  /** A revision is appended to the revision it was prepared for. */
  predicate Applies(c: Core, payload: Payload) {
    payload.RevisionPayload? ==> payload.event in c.events && |c.events[payload.event]| == payload.base
  }

  /** One Core command under its idempotency key. */
  function Command(s: Sys, left: nat, call: Call, step: Step, payload: Payload): Progress
    requires call.Op() in s.memory
  {
    var key := KeyOf(call, step);
    if step in call.faults && call.faults[step] == Busy then RecordFailure(s, left, call, true, StoreError)
    else if key in s.core.records then
      if s.core.records[key].payload == payload then Going(s, left)
      else RecordFailure(s, left, call, false, CoreConflict)
    else if step in call.faults then RecordFailure(s, left, call, false, StoreError)
    else if !Applies(s.core, payload) then RecordFailure(s, left, call, false, RevisionConflict)
    else if left == 0 then Stop(s, call)
    else Going(s.(core := Commit(s.core, key, payload)), left - 1)
  }

  /** The transaction: a new id, the record, and the event or revision itself. */
  function Commit(c: Core, key: CommandKey, payload: Payload): Core {
    Core(c.records[key := Record(payload, c.nextId)],
         if payload.EventPayload? then c.events[c.nextId := [Row(c.nextId, payload)]]
         else if payload.RevisionPayload? && payload.event in c.events then
           c.events[payload.event := c.events[payload.event] + [Row(c.nextId, payload)]]
         else c.events,
         c.nextId + 1)
  }

  /** The result of the previous command of this call. */
  function ResultOf(c: Core, key: CommandKey): Id {
    if key in c.records then c.records[key].result else 0
  }

  function SourceOf(m: Meaning, e: Effective, key: string): Payload {
    SourcePayload(m.owner, m.space, m.content, e.start, e.sensitivity, e.now, key)
  }

  function ObservationOf(m: Meaning, e: Effective, source: Id): Payload {
    ObservationPayload(source, m.space, Clip(m.content, 4000), e.start, m.evidenceState, e.now)
  }

  function EffectOf(m: Meaning, e: Effective, observation: Id): Payload {
    match m
    case NewEvent(owner, space, content, _, eventType, evidenceState, factStatus, _) =>
      EventPayload(owner, space, eventType, e.start, Clip(content, 200), Clip(content, 4000), factStatus, e.sensitivity, e.now,
                   observation, evidenceState)
    case NewRevision(_, _, event, content, evidenceState, factStatus) =>
      RevisionPayload(event, e.base, Clip(content, 4000), factStatus, observation, evidenceState)
  }

  /** What a call sends for a step, with the pinned values of its operation. */
  function PayloadFor(c: Core, call: Call, e: Effective, step: Step): Payload {
    match step
    case Contract => ContractPayload(call.meaning.owner, call.meaning.space)
    case Capture => SourceOf(call.meaning, e, call.key)
    case Observe => ObservationOf(call.meaning, e, ResultOf(c, CaptureKey(call.key)))
    case Effect => EffectOf(call.meaning, e, ResultOf(c, ObserveKey(call.key)))
  }

  function Do(p: Progress, call: Call, step: Step): Progress {
    if p.Over? || call.Op() !in p.sys.memory then p
    else Command(p.sys, p.left, call, step, PayloadFor(p.sys.core, call, p.sys.memory[call.Op()].effective, step))
  }

  /** _complete_operation. */
  function Complete(p: Progress, call: Call): Progress {
    if p.Over? || call.Op() !in p.sys.memory then p
    else
      var result := ResultOf(p.sys.core, EffectKey(call.Op()));
      var op := p.sys.memory[call.Op()].(state := Committed(result));
      SaveAnd(Put(p.sys, call.Op(), op), p.left, call, Returned(result))
  }

  /** create_event and append_revision. */
  function Perform(s: Sys, call: Call): Progress {
    Complete(Do(Do(Do(Do(Begin(s, call), call, Contract), call, Capture), call, Observe), call, Effect), call)
  }

  // ---- the invariant ----

  /** The evidence recorded under the client key is that of this operation. */
  ghost predicate Captured(c: Core, o: OpKey, op: Operation) {
    CaptureKey(o.key) in c.records && c.records[CaptureKey(o.key)].payload == SourceOf(op.meaning, op.effective, o.key)
  }

  ghost predicate Observed(c: Core, o: OpKey, op: Operation) {
    && Captured(c, o, op) && ObserveKey(o.key) in c.records
    && c.records[ObserveKey(o.key)].payload == ObservationOf(op.meaning, op.effective, c.records[CaptureKey(o.key)].result)
  }

  /** A revision was prepared for an event of Core and a revision it has. */
  ghost predicate TargetOk(c: Core, op: Operation) {
    op.meaning.NewRevision? ==> op.meaning.event in c.events && 1 <= op.effective.base <= |c.events[op.meaning.event]|
  }

  /** An effect that Core has recorded rests on this operation's own evidence and carries its pinned values. */
  ghost predicate RecordOk(c: Core, o: OpKey, op: Operation) {
    && KindOf(op.meaning) == o.kind && TargetOk(c, op)
    && (EffectKey(o) in c.records ==>
          && Observed(c, o, op)
          && c.records[EffectKey(o)].payload == EffectOf(op.meaning, op.effective, c.records[ObserveKey(o.key)].result))
    && (op.state.Committed? ==> EffectKey(o) in c.records && c.records[EffectKey(o)].result == op.state.result)
  }

  predicate SameBinding(a: Operation, b: Operation) {
    a.meaning == b.meaning && a.effective == b.effective
  }

  /** Control state: what is on disk is in memory too, with the same meaning and the same pinned values. */
  ghost predicate ControlOk(s: Sys, o: OpKey) {
    && (o in s.disk ==> o in s.memory && SameBinding(s.memory[o], s.disk[o]) && RecordOk(s.core, o, s.disk[o]))
    && (o in s.memory ==> RecordOk(s.core, o, s.memory[o]))
    && (EffectKey(o) in s.core.records ==> o in s.disk)
  }

  /** Evidence under a client key was recorded by one of the two operations of that key. */
  ghost predicate EvidenceOk(s: Sys, key: string) {
    && (CaptureKey(key) in s.core.records ==> exists kind :: OpKey(kind, key) in s.disk && Captured(s.core, OpKey(kind, key), s.disk[OpKey(kind, key)]))
    && (ObserveKey(key) in s.core.records ==> exists kind :: OpKey(kind, key) in s.disk && Observed(s.core, OpKey(kind, key), s.disk[OpKey(kind, key)]))
  }

  /** Where the row of a recorded effect stands. */
  ghost predicate HasRow(c: Core, r: Record) {
    match r.payload
    case EventPayload(_, _, _, _, _, _, _, _, _, _, _) =>
      r.result in c.events && |c.events[r.result]| > 0 && c.events[r.result][0] == Row(r.result, r.payload)
    case RevisionPayload(event, base, _, _, _, _) =>
      event in c.events && 1 <= base < |c.events[event]| && c.events[event][base] == Row(r.result, r.payload)
    case _ => false
  }

  ghost predicate CommandOk(c: Core, k: CommandKey) {
    k in c.records ==>
      && c.records[k].result < c.nextId
      && (k.ContractKey? ==> c.records[k].payload == ContractPayload(k.owner, k.space))
      && (k.EffectKey? ==> HasRow(c, c.records[k]) && (c.records[k].payload.EventPayload? <==> k.op.kind == Creating))
  }

  /** Each row of an event was made by one operation. */
  ghost predicate RowOk(c: Core, e: Id, i: int) {
    e in c.events && 0 <= i < |c.events[e]| ==>
      var row := c.events[e][i];
      && e < c.nextId && row.id < c.nextId
      && (if i == 0 then row.payload.EventPayload? && row.id == e else row.payload.RevisionPayload? && row.payload.event == e && row.payload.base == i)
      && exists o :: MadeBy(c, row, o)
  }

  ghost predicate MadeBy(c: Core, row: Row, o: OpKey) {
    EffectKey(o) in c.records && c.records[EffectKey(o)] == Record(row.payload, row.id)
  }

  /** The result of an operation, as Core has recorded it. */
  ghost predicate Effected(c: Core, o: OpKey, result: Id) {
    EffectKey(o) in c.records && c.records[EffectKey(o)].result == result
  }

  ghost predicate SoleMaker(c: Core, o: OpKey, other: OpKey) {
    EffectKey(o) in c.records && EffectKey(other) in c.records && c.records[EffectKey(o)].result == c.records[EffectKey(other)].result ==>
      o == other
  }

  ghost predicate CoreOk(c: Core) {
    && (forall k :: CommandOk(c, k))
    && (forall e, i :: RowOk(c, e, i))
    && (forall e :: e in c.events ==> c.events[e] != [])
    && (forall o, other :: SoleMaker(c, o, other))
  }

  ghost predicate Inv(s: Sys) {
    CoreOk(s.core) && (forall o :: ControlOk(s, o)) && (forall key :: EvidenceOk(s, key))
  }

  /** What every step of a call keeps, besides the invariant, once the operation has begun. */
  ghost predicate Ready(s: Sys, call: Call) {
    Inv(s) && call.Op() in s.disk && call.Op() in s.memory && s.memory[call.Op()].meaning == call.meaning
  }

  /** Evidence under the client key that is not this operation's. */
  ghost predicate Foreign(c: Core, o: OpKey, op: Operation) {
    || (CaptureKey(o.key) in c.records && !Captured(c, o, op))
    || (ObserveKey(o.key) in c.records && !Observed(c, o, op))
  }

  /** The event has a revision that the append was not prepared for. */
  predicate Moved(c: Core, o: OpKey, op: Operation) {
    op.meaning.NewRevision? && EffectKey(o) !in c.records && op.meaning.event in c.events && |c.events[op.meaning.event]| > op.effective.base
  }

  /** A conflict closes the operation: the evidence under the client key is another operation's, or the event moved on. */
  ghost predicate ConflictIsReal(s: Sys, call: Call, outcome: Outcome) {
    outcome in {CoreConflict, RevisionConflict} ==>
      && call.Op() in s.memory && s.memory[call.Op()].meaning == call.meaning && s.memory[call.Op()].state == Failed
      && if outcome == CoreConflict then Foreign(s.core, call.Op(), s.memory[call.Op()]) else Moved(s.core, call.Op(), s.memory[call.Op()])
  }

  lemma BindingCarriesOver(c: Core, o: OpKey, a: Operation, b: Operation)
    requires SameBinding(a, b)
    ensures Captured(c, o, a) <==> Captured(c, o, b)
    ensures Observed(c, o, a) <==> Observed(c, o, b)
  {
  }

  /** Control state moves on by keeping every binding on disk. */
  lemma EvidenceCarriesOver(s: Sys, t: Sys)
    requires forall key :: EvidenceOk(s, key)
    requires t.core == s.core && forall o :: o in s.disk ==> o in t.disk && SameBinding(s.disk[o], t.disk[o])
    ensures forall key :: EvidenceOk(t, key)
  {
    forall key ensures EvidenceOk(t, key) {
      assert EvidenceOk(s, key);
      forall kind | OpKey(kind, key) in s.disk
        ensures Captured(s.core, OpKey(kind, key), s.disk[OpKey(kind, key)]) ==> Captured(t.core, OpKey(kind, key), t.disk[OpKey(kind, key)])
        ensures Observed(s.core, OpKey(kind, key), s.disk[OpKey(kind, key)]) ==> Observed(t.core, OpKey(kind, key), t.disk[OpKey(kind, key)])
      {
        BindingCarriesOver(s.core, OpKey(kind, key), s.disk[OpKey(kind, key)], t.disk[OpKey(kind, key)]);
      }
    }
  }

  lemma SaveKeepsInv(s: Sys, left: nat, call: Call)
    requires Inv(s)
    ensures Inv(Save(s, left, call).sys)
    ensures Save(s, left, call).Over? ==> Save(s, left, call).outcome == Interrupted
    ensures Save(s, left, call).sys.core == s.core
  {
    var s1 := Save(s, left, call).sys;
    forall o ensures ControlOk(s1, o) && (o in s.disk ==> o in s1.disk && SameBinding(s.disk[o], s1.disk[o])) {
      assert ControlOk(s, o);
    }
    EvidenceCarriesOver(s, s1);
  }

  /** Memory may take a new record for a slot, or change anything but meaning and pinned values of one it has. */
  lemma PutKeepsInv(s: Sys, o: OpKey, op: Operation)
    requires Inv(s) && RecordOk(s.core, o, op)
    requires o in s.memory ==> SameBinding(s.memory[o], op)
    ensures Inv(Put(s, o, op))
  {
    forall k ensures ControlOk(Put(s, o, op), k) {
      assert ControlOk(s, k);
    }
    EvidenceCarriesOver(s, Put(s, o, op));
  }

  lemma NewOperationIsOk(s: Sys, call: Call)
    requires Inv(s) && call.Op() !in s.memory && Visible(s.core, call.meaning)
    ensures RecordOk(s.core, call.Op(), Operation(call.meaning, Prepared, 0, EffectiveOf(s.core, call.meaning, call.now)))
  {
    assert ControlOk(s, call.Op());
  }

  lemma BeginKeepsInv(s: Sys, call: Call)
    requires Inv(s)
    ensures var p := Begin(s, call);
      && Inv(p.sys) && p.sys.core == s.core
      && (p.Going? ==> Ready(p.sys, call) && Visible(s.core, call.meaning))
      && (p.Over? ==> ConflictIsReal(p.sys, call, p.outcome))
      && (p.Over? && p.outcome.Returned? ==>
            Effected(s.core, call.Op(), p.outcome.result) && call.Op() in p.sys.memory && p.sys.memory[call.Op()].meaning == call.meaning)
  {
    assert ControlOk(s, call.Op());
    if Visible(s.core, call.meaning) {
      if call.Op() in s.memory {
        var op := s.memory[call.Op()];
        if op.meaning == call.meaning && !op.state.Committed? && op.state != Failed {
          PutKeepsInv(s, call.Op(), op.(attempts := op.attempts + 1));
          SaveKeepsInv(Put(s, call.Op(), op.(attempts := op.attempts + 1)), call.writes, call);
        }
      } else {
        var op := Operation(call.meaning, Prepared, 0, EffectiveOf(s.core, call.meaning, call.now));
        var s1 := Put(s, call.Op(), op);
        NewOperationIsOk(s, call);
        PutKeepsInv(s, call.Op(), op);
        SaveKeepsInv(s1, call.writes, call);
        var p := Save(s1, call.writes, call);
        if p.Going? {
          assert ControlOk(p.sys, call.Op());
          PutKeepsInv(p.sys, call.Op(), op.(attempts := 1));
          SaveKeepsInv(Put(p.sys, call.Op(), op.(attempts := 1)), p.left, call);
        }
      }
    }
  }

  lemma FailureKeepsInv(s: Sys, left: nat, call: Call, retryable: bool, outcome: Outcome)
    requires Ready(s, call)
    ensures call.Op() in s.memory
    ensures var p := RecordFailure(s, left, call, retryable, outcome);
      && p.Over? && Inv(p.sys) && p.sys.core == s.core && p.outcome in {outcome, Interrupted}
      && (p.outcome == outcome != Interrupted ==>
            && call.Op() in p.sys.memory && SameBinding(p.sys.memory[call.Op()], s.memory[call.Op()])
            && p.sys.memory[call.Op()].state == if retryable then RetryPending else Failed)
  {
    assert ControlOk(s, call.Op());
    var op := s.memory[call.Op()].(state := if retryable then RetryPending else Failed);
    PutKeepsInv(s, call.Op(), op);
    SaveKeepsInv(Put(s, call.Op(), op), left, call);
  }

  /** What a call has reached after a step. */
  ghost predicate Reached(s: Sys, call: Call, step: Step)
    requires call.Op() in s.memory
  {
    match step
    case Contract => true
    case Capture => Captured(s.core, call.Op(), s.memory[call.Op()])
    case Observe => Observed(s.core, call.Op(), s.memory[call.Op()])
    case Effect => EffectKey(call.Op()) in s.core.records
  }

  ghost predicate Before(s: Sys, call: Call, step: Step)
    requires call.Op() in s.memory
  {
    match step
    case Contract => true
    case Capture => true
    case Observe => Reached(s, call, Capture)
    case Effect => Reached(s, call, Observe)
  }

  function PinnedPayload(s: Sys, call: Call, step: Step): Payload
    requires call.Op() in s.memory
  {
    PayloadFor(s.core, call, s.memory[call.Op()].effective, step)
  }

  /** A recorded command is replayed with the recorded payload, unless it is evidence of the other operation. */
  lemma ReplayMatches(s: Sys, call: Call, step: Step)
    requires Ready(s, call) && KeyOf(call, step) in s.core.records && Before(s, call, step)
    ensures call.Op() in s.memory
    ensures s.core.records[KeyOf(call, step)].payload == PinnedPayload(s, call, step) ==> Reached(s, call, step)
    ensures s.core.records[KeyOf(call, step)].payload != PinnedPayload(s, call, step) ==>
      step in {Capture, Observe} && Foreign(s.core, call.Op(), s.memory[call.Op()])
  {
    assert ControlOk(s, call.Op()) && CommandOk(s.core, KeyOf(call, step));
  }

  ghost predicate CommitOk(c: Core, k: CommandKey, payload: Payload) {
    && (k.ContractKey? ==> payload == ContractPayload(k.owner, k.space))
    && (if k.EffectKey? then (if k.op.kind == Creating then payload.EventPayload? else payload.RevisionPayload?)
        else !payload.EventPayload? && !payload.RevisionPayload?)
    && Applies(c, payload)
  }

  lemma OldRowsStay(c: Core, k: CommandKey, payload: Payload)
    requires CoreOk(c)
    ensures var d := Commit(c, k, payload);
      forall e :: e in c.events ==> e in d.events && c.events[e] <= d.events[e]
  {
    assert RowOk(c, c.nextId, 0);
  }

  lemma CommitKeepsCommand(c: Core, k: CommandKey, payload: Payload, x: CommandKey)
    requires CoreOk(c) && k !in c.records && CommitOk(c, k, payload)
    ensures CommandOk(Commit(c, k, payload), x)
  {
    OldRowsStay(c, k, payload);
    assert CommandOk(c, x);
    if x == k && payload.RevisionPayload? {
      assert c.events[payload.event] != [];
    }
  }

  lemma CommitKeepsRow(c: Core, k: CommandKey, payload: Payload, e: Id, i: int)
    requires CoreOk(c) && k !in c.records && CommitOk(c, k, payload)
    ensures RowOk(Commit(c, k, payload), e, i)
  {
    var d := Commit(c, k, payload);
    OldRowsStay(c, k, payload);
    assert RowOk(c, e, i);
    if e in d.events && 0 <= i < |d.events[e]| {
      if e in c.events && i < |c.events[e]| {
        var o :| MadeBy(c, c.events[e][i], o);
        assert MadeBy(d, d.events[e][i], o);
      } else {
        assert MadeBy(d, d.events[e][i], k.op);
        if payload.RevisionPayload? { assert RowOk(c, e, 0); }
      }
    }
  }

  lemma CommitKeepsCore(c: Core, k: CommandKey, payload: Payload)
    requires CoreOk(c) && k !in c.records && CommitOk(c, k, payload)
    ensures CoreOk(Commit(c, k, payload))
  {
    var d := Commit(c, k, payload);
    forall x ensures CommandOk(d, x) { CommitKeepsCommand(c, k, payload, x); }
    forall e, i ensures RowOk(d, e, i) { CommitKeepsRow(c, k, payload, e, i); }
    forall o, other ensures SoleMaker(d, o, other) {
      assert SoleMaker(c, o, other) && CommandOk(c, EffectKey(o)) && CommandOk(c, EffectKey(other));
    }
  }

  lemma RecordsOnlyGrow(c: Core, d: Core, o: OpKey, op: Operation)
    requires forall k :: k in c.records ==> k in d.records && d.records[k] == c.records[k]
    ensures Captured(c, o, op) ==> Captured(d, o, op)
    ensures Observed(c, o, op) ==> Observed(d, o, op)
  {
  }

  lemma CommitKeepsControl(s: Sys, call: Call, step: Step, o: OpKey)
    requires Ready(s, call) && KeyOf(call, step) !in s.core.records && Before(s, call, step)
    ensures call.Op() in s.memory
    ensures ControlOk(s.(core := Commit(s.core, KeyOf(call, step), PinnedPayload(s, call, step))), o)
  {
    OldRowsStay(s.core, KeyOf(call, step), PinnedPayload(s, call, step));
    assert ControlOk(s, call.Op()) && ControlOk(s, o);
  }

  lemma CommitKeepsEvidence(s: Sys, call: Call, step: Step, key: string)
    requires Ready(s, call) && KeyOf(call, step) !in s.core.records && Before(s, call, step)
    ensures call.Op() in s.memory
    ensures EvidenceOk(s.(core := Commit(s.core, KeyOf(call, step), PinnedPayload(s, call, step))), key)
  {
    var d := Commit(s.core, KeyOf(call, step), PinnedPayload(s, call, step));
    var o := call.Op();
    assert EvidenceOk(s, key) && ControlOk(s, o);
    if CaptureKey(key) in s.core.records {
      var kind :| OpKey(kind, key) in s.disk && Captured(s.core, OpKey(kind, key), s.disk[OpKey(kind, key)]);
      RecordsOnlyGrow(s.core, d, OpKey(kind, key), s.disk[OpKey(kind, key)]);
    } else if CaptureKey(key) in d.records {
      assert Captured(d, OpKey(o.kind, key), s.disk[OpKey(o.kind, key)]);
    }
    if ObserveKey(key) in s.core.records {
      var kind :| OpKey(kind, key) in s.disk && Observed(s.core, OpKey(kind, key), s.disk[OpKey(kind, key)]);
      RecordsOnlyGrow(s.core, d, OpKey(kind, key), s.disk[OpKey(kind, key)]);
    } else if ObserveKey(key) in d.records {
      assert Observed(d, OpKey(o.kind, key), s.disk[OpKey(o.kind, key)]);
    }
  }

  lemma CommitKeepsInv(s: Sys, call: Call, step: Step)
    requires Ready(s, call) && KeyOf(call, step) !in s.core.records && Before(s, call, step)
    requires call.Op() in s.memory ==> Applies(s.core, PinnedPayload(s, call, step))
    ensures call.Op() in s.memory
    ensures Ready(s.(core := Commit(s.core, KeyOf(call, step), PinnedPayload(s, call, step))), call)
    ensures Reached(s.(core := Commit(s.core, KeyOf(call, step), PinnedPayload(s, call, step))), call, step)
  {
    var k, payload := KeyOf(call, step), PinnedPayload(s, call, step);
    var s1 := s.(core := Commit(s.core, k, payload));
    CommitKeepsCore(s.core, k, payload);
    forall o ensures ControlOk(s1, o) { CommitKeepsControl(s, call, step, o); }
    forall key ensures EvidenceOk(s1, key) { CommitKeepsEvidence(s, call, step, key); }
  }

  /** Core has gained at most records of this call's keys, and a row only with the effect of its operation. */
  ghost predicate OnlyThisKey(c: Core, d: Core, call: Call) {
    && (forall k :: k in c.records ==> k in d.records && d.records[k] == c.records[k])
    && (forall k :: k in d.records && k !in c.records ==> exists step :: k == KeyOf(call, step))
    && (forall e :: e in c.events ==> e in d.events && c.events[e] <= d.events[e])
    && (forall e, i :: NewRowIsTheCalls(c, d, call, e, i))
  }

  ghost predicate NewRowIsTheCalls(c: Core, d: Core, call: Call, e: Id, i: int) {
    e in d.events && 0 <= i < |d.events[e]| && (e in c.events ==> i >= |c.events[e]|) ==>
      EffectKey(call.Op()) !in c.records && MadeBy(d, d.events[e][i], call.Op())
  }

  lemma NothingIsOnlyThisKey(c: Core, call: Call)
    ensures OnlyThisKey(c, c, call)
  {
  }

  lemma CommitAddsOneRecord(s: Sys, call: Call, step: Step)
    requires Ready(s, call) && KeyOf(call, step) !in s.core.records
    ensures OnlyThisKey(s.core, Commit(s.core, KeyOf(call, step), PinnedPayload(s, call, step)), call)
  {
    var k, payload := KeyOf(call, step), PinnedPayload(s, call, step);
    OldRowsStay(s.core, k, payload);
    assert payload.EventPayload? || payload.RevisionPayload? ==> k == EffectKey(call.Op());
    forall e, i ensures NewRowIsTheCalls(s.core, Commit(s.core, k, payload), call, e, i) {
    }
  }

  /** One Core command in a call that is under way: its step is reached, or the call is over. */
  lemma DoKeepsInv(p: Progress, call: Call, step: Step)
    requires p.Going? ==> Ready(p.sys, call) && Before(p.sys, call, step)
    requires p.Over? ==> Inv(p.sys)
    ensures var q := Do(p, call, step);
      && Inv(q.sys)
      && (q.Going? ==> p.Going? && Ready(q.sys, call) && Reached(q.sys, call, step))
      && (p.Over? ==> q == p)
      && (p.Going? && q.Over? ==> q.outcome in {StoreError, Interrupted, CoreConflict, RevisionConflict})
      && (p.Going? && q.Over? ==> ConflictIsReal(q.sys, call, q.outcome))
      && OnlyThisKey(p.sys.core, q.sys.core, call)
  {
    NothingIsOnlyThisKey(p.sys.core, call);
    if p.Going? {
      hide OnlyThisKey, CoreOk, RecordFailure, Commit, PinnedPayload, CommitOk;
      assert ControlOk(p.sys, call.Op());
      var k := KeyOf(call, step);
      if step in call.faults && call.faults[step] == Busy {
        FailureKeepsInv(p.sys, p.left, call, true, StoreError);
      } else if k in p.sys.core.records {
        ReplayMatches(p.sys, call, step);
        FailureKeepsInv(p.sys, p.left, call, false, CoreConflict);
        DoIsCommand(p, call, step);
      } else if step in call.faults {
        FailureKeepsInv(p.sys, p.left, call, false, StoreError);
      } else if !Applies(p.sys.core, PinnedPayload(p.sys, call, step)) {
        FailureKeepsInv(p.sys, p.left, call, false, RevisionConflict);
        DoIsCommand(p, call, step);
      } else if p.left > 0 {
        CommitKeepsInv(p.sys, call, step);
        CommitAddsOneRecord(p.sys, call, step);
        DoIsCommand(p, call, step);
      } else {
        SaveKeepsInv(p.sys, 0, call);
        DoIsCommand(p, call, step);
      }
    }
  }

  lemma DoIsCommand(p: Progress, call: Call, step: Step)
    requires p.Going? && call.Op() in p.sys.memory
    ensures Do(p, call, step) == Command(p.sys, p.left, call, step, PinnedPayload(p.sys, call, step))
  {
  }

  // ---- one call ----

  lemma OnlyThisKeyComposes(c: Core, d: Core, e: Core, call: Call)
    requires OnlyThisKey(c, d, call) && OnlyThisKey(d, e, call)
    ensures OnlyThisKey(c, e, call)
  {
    forall x, i ensures NewRowIsTheCalls(c, e, call, x, i) {
      assert NewRowIsTheCalls(c, d, call, x, i) && NewRowIsTheCalls(d, e, call, x, i);
    }
    forall k | k in e.records && k !in c.records ensures exists step :: k == KeyOf(call, step) {
      if k in d.records {
        assert exists step :: k == KeyOf(call, step);
      }
    }
  }

  lemma CompleteKeepsInv(p: Progress, call: Call)
    requires p.Going? ==> Ready(p.sys, call) && EffectKey(call.Op()) in p.sys.core.records
    requires p.Over? ==> Inv(p.sys)
    ensures var q := Complete(p, call);
      && Inv(q.sys) && q.Over? && q.sys.core == p.sys.core
      && (p.Over? ==> q == p)
      && (p.Going? ==> ConflictIsReal(q.sys, call, q.outcome))
      && (p.Going? ==>
           q.outcome == Interrupted ||
           (q.outcome.Returned? && Effected(q.sys.core, call.Op(), q.outcome.result) &&
            call.Op() in q.sys.memory && q.sys.memory[call.Op()].meaning == call.meaning))
  {
    if p.Going? {
      assert ControlOk(p.sys, call.Op());
      var op := p.sys.memory[call.Op()].(state := Committed(ResultOf(p.sys.core, EffectKey(call.Op()))));
      PutKeepsInv(p.sys, call.Op(), op);
      SaveKeepsInv(Put(p.sys, call.Op(), op), p.left, call);
    }
  }

  /** What a call promises: another operation's rows are never touched, a returned id is that of the row this operation
      made, and a conflict is real and closes the operation. */
  ghost predicate CallMeets(s: Sys, call: Call) {
    var r := Perform(s, call);
    && r.Over? && Inv(r.sys) && OnlyThisKey(s.core, r.sys.core, call)
    && ConflictIsReal(r.sys, call, r.outcome)
    && (r.outcome.Returned? ==> Effected(r.sys.core, call.Op(), r.outcome.result))
    && (r.outcome.Returned? ==> call.Op() in r.sys.memory && r.sys.memory[call.Op()].meaning == call.meaning)
  }

  lemma CallIsSafe(s: Sys, call: Call)
    requires Inv(s)
    ensures CallMeets(s, call)
  {
    hide Begin, Do, Complete, Inv, OnlyThisKey, Effected, Captured, Observed, ConflictIsReal;
    BeginKeepsInv(s, call);
    var p0 := Begin(s, call);
    DoKeepsInv(p0, call, Contract);
    var p1 := Do(p0, call, Contract);
    DoKeepsInv(p1, call, Capture);
    var p2 := Do(p1, call, Capture);
    DoKeepsInv(p2, call, Observe);
    var p3 := Do(p2, call, Observe);
    DoKeepsInv(p3, call, Effect);
    var p4 := Do(p3, call, Effect);
    CompleteKeepsInv(p4, call);
    OnlyThisKeyComposes(p0.sys.core, p1.sys.core, p2.sys.core, call);
    OnlyThisKeyComposes(p0.sys.core, p2.sys.core, p3.sys.core, call);
    OnlyThisKeyComposes(p0.sys.core, p3.sys.core, p4.sys.core, call);
  }

  /** A slot that control state already binds to another meaning conflicts, before anything is written or Core is asked;
      and that is the only way for a visible target. */
  lemma ChangedMeaningConflicts(s: Sys, call: Call)
    requires Inv(s)
    ensures var r := Perform(s, call);
      && ((r.Over? && r.outcome == KeyConflict) <==>
            Visible(s.core, call.meaning) && call.Op() in s.memory && s.memory[call.Op()].meaning != call.meaning)
      && (r.Over? && r.outcome == NotVisible <==> !Visible(s.core, call.meaning))
      && (r.Over? && r.outcome in {KeyConflict, NotVisible} ==> r.sys == s)
  {
    hide Do, Complete, Inv, OnlyThisKey, Captured, Observed, ConflictIsReal, Visible;
    var p0 := Begin(s, call);
    BeginKeepsInv(s, call);
    DoKeepsInv(p0, call, Contract);
    var p1 := Do(p0, call, Contract);
    DoKeepsInv(p1, call, Capture);
    var p2 := Do(p1, call, Capture);
    DoKeepsInv(p2, call, Observe);
    var p3 := Do(p2, call, Observe);
    DoKeepsInv(p3, call, Effect);
    CompleteKeepsInv(Do(p3, call, Effect), call);
  }

  // ---- what a call may change in control state ----

  predicate BoundBy(c: Core, op: Operation, call: Call) {
    op.meaning == call.meaning && Visible(c, call.meaning) && op.effective == EffectiveOf(c, call.meaning, call.now)
  }

  /** A slot keeps its meaning and pinned values; a new binding is this call's own, with what Core showed when it began;
      what is on disk stays. */
  ghost predicate BindingKept(c: Core, s: Sys, t: Sys, call: Call, o: OpKey) {
    && (o in t.memory ==>
         || (o in s.memory && SameBinding(s.memory[o], t.memory[o]))
         || (o == call.Op() && BoundBy(c, t.memory[o], call)))
    && (o in s.disk ==> o in t.disk && SameBinding(s.disk[o], t.disk[o]))
  }

  ghost predicate BindingsKept(c: Core, s: Sys, t: Sys, call: Call) {
    forall o :: BindingKept(c, s, t, call, o)
  }

  lemma BindingsCompose(c: Core, s: Sys, t: Sys, u: Sys, call: Call)
    requires BindingsKept(c, s, t, call) && BindingsKept(c, t, u, call)
    ensures BindingsKept(c, s, u, call)
  {
    forall o ensures BindingKept(c, s, u, call, o) {
      assert BindingKept(c, s, t, call, o) && BindingKept(c, t, u, call, o);
    }
  }

  lemma SaveKeepsBindings(c: Core, s: Sys, left: nat, call: Call)
    requires Inv(s)
    ensures BindingsKept(c, s, Save(s, left, call).sys, call)
  {
    forall o ensures BindingKept(c, s, Save(s, left, call).sys, call, o) {
      assert ControlOk(s, o);
    }
  }

  /** A record is put and saved: the binding is the one it had, or this call's. */
  lemma PutAndSaveKeepsBindings(c: Core, s: Sys, left: nat, call: Call, op: Operation)
    requires Inv(s) && RecordOk(s.core, call.Op(), op)
    requires if call.Op() in s.memory then SameBinding(s.memory[call.Op()], op) else BoundBy(c, op, call)
    ensures BindingsKept(c, s, Save(Put(s, call.Op(), op), left, call).sys, call)
  {
    hide Visible;
    var s1 := Put(s, call.Op(), op);
    PutKeepsInv(s, call.Op(), op);
    SaveKeepsBindings(c, s1, left, call);
    assert BindingsKept(c, s, s1, call) by {
      forall o ensures BindingKept(c, s, s1, call, o) {}
    }
    BindingsCompose(c, s, s1, Save(s1, left, call).sys, call);
  }

  lemma SameControlKeepsBindings(c: Core, s: Sys, t: Sys, call: Call)
    requires t.memory == s.memory && t.disk == s.disk
    ensures BindingsKept(c, s, t, call)
  {
    forall o ensures BindingKept(c, s, t, call, o) {}
  }

  lemma BeginKeepsBindings(s: Sys, call: Call)
    requires Inv(s)
    ensures BindingsKept(s.core, s, Begin(s, call).sys, call)
  {
    assert ControlOk(s, call.Op());
    SameControlKeepsBindings(s.core, s, s, call);
    if Visible(s.core, call.meaning) {
      if call.Op() in s.memory {
        var op := s.memory[call.Op()];
        PutAndSaveKeepsBindings(s.core, s, call.writes, call, op.(attempts := op.attempts + 1));
      } else {
        var op := Operation(call.meaning, Prepared, 0, EffectiveOf(s.core, call.meaning, call.now));
        NewOperationIsOk(s, call);
        PutAndSaveKeepsBindings(s.core, s, call.writes, call, op);
        PutKeepsInv(s, call.Op(), op);
        SaveKeepsInv(Put(s, call.Op(), op), call.writes, call);
        var p := Save(Put(s, call.Op(), op), call.writes, call);
        if p.Going? {
          assert ControlOk(p.sys, call.Op());
          PutAndSaveKeepsBindings(s.core, p.sys, p.left, call, op.(attempts := 1));
          BindingsCompose(s.core, s, p.sys, Begin(s, call).sys, call);
        }
      }
    }
  }

  lemma DoKeepsBindings(c: Core, p: Progress, call: Call, step: Step)
    requires p.Going? ==> Ready(p.sys, call)
    ensures BindingsKept(c, p.sys, Do(p, call, step).sys, call)
  {
    var q := Do(p, call, step);
    if p.Going? {
      assert ControlOk(p.sys, call.Op());
      var op := p.sys.memory[call.Op()];
      PutAndSaveKeepsBindings(c, p.sys, p.left, call, op.(state := RetryPending));
      PutAndSaveKeepsBindings(c, p.sys, p.left, call, op.(state := Failed));
      SaveKeepsBindings(c, p.sys, 0, call);
    }
    hide BindingsKept, Inv, PayloadFor;
    if q.sys.memory == p.sys.memory && q.sys.disk == p.sys.disk {
      SameControlKeepsBindings(c, p.sys, q.sys, call);
    }
  }

  lemma CompleteKeepsBindings(c: Core, p: Progress, call: Call)
    requires p.Going? ==> Ready(p.sys, call) && EffectKey(call.Op()) in p.sys.core.records
    ensures BindingsKept(c, p.sys, Complete(p, call).sys, call)
  {
    if p.Going? {
      assert ControlOk(p.sys, call.Op());
      var op := p.sys.memory[call.Op()].(state := Committed(ResultOf(p.sys.core, EffectKey(call.Op()))));
      PutAndSaveKeepsBindings(c, p.sys, p.left, call, op);
    } else {
      SameControlKeepsBindings(c, p.sys, p.sys, call);
    }
  }

  lemma CallKeepsBindings(s: Sys, call: Call)
    requires Inv(s)
    ensures BindingsKept(s.core, s, Perform(s, call).sys, call)
  {
    hide Begin, Do, Complete, Inv, OnlyThisKey, Captured, Observed, ConflictIsReal, BindingsKept;
    BeginKeepsInv(s, call);
    BeginKeepsBindings(s, call);
    var p0 := Begin(s, call);
    DoKeepsInv(p0, call, Contract);
    DoKeepsBindings(s.core, p0, call, Contract);
    var p1 := Do(p0, call, Contract);
    DoKeepsInv(p1, call, Capture);
    DoKeepsBindings(s.core, p1, call, Capture);
    var p2 := Do(p1, call, Capture);
    DoKeepsInv(p2, call, Observe);
    DoKeepsBindings(s.core, p2, call, Observe);
    var p3 := Do(p2, call, Observe);
    DoKeepsInv(p3, call, Effect);
    DoKeepsBindings(s.core, p3, call, Effect);
    var p4 := Do(p3, call, Effect);
    CompleteKeepsBindings(s.core, p4, call);
    BindingsCompose(s.core, s, p0.sys, p1.sys, call);
    BindingsCompose(s.core, s, p1.sys, p2.sys, call);
    BindingsCompose(s.core, s, p2.sys, p3.sys, call);
    BindingsCompose(s.core, s, p3.sys, p4.sys, call);
    BindingsCompose(s.core, s, p4.sys, Complete(p4, call).sys, call);
  }
}
