/** Runs of create_event and append_revision with crashes, faults and restarts, client keys shared between the two or not:
    exactly-once effects, refinement of one atomic step, and exactly when two operations get in each other's way. */
module TwoStoreRuns {
  import opened Json
  import opened TwoStore

  datatype Action = Ask(call: Call) | Restart

  function Act(s: Sys, action: Action): Sys {
    match action
    case Ask(call) => Perform(s, call).sys
    case Restart => s.(memory := s.disk)
  }

  /** Any number of calls, each with its own faults and crash point, and restarts between them. */
  function Run(actions: seq<Action>): Sys {
    if actions == [] then Empty else Act(Run(actions[..|actions| - 1]), actions[|actions| - 1])
  }

  lemma RestartKeepsInv(s: Sys)
    requires Inv(s)
    ensures Inv(s.(memory := s.disk))
  {
    forall o ensures ControlOk(s.(memory := s.disk), o) {
      assert ControlOk(s, o);
    }
    EvidenceCarriesOver(s, s.(memory := s.disk));
  }

  lemma {:induction false} RunKeepsInv(actions: seq<Action>)
    ensures Inv(Run(actions))
  {
    if actions != [] {
      var s, last := Run(actions[..|actions| - 1]), actions[|actions| - 1];
      RunKeepsInv(actions[..|actions| - 1]);
      match last
      case Ask(call) => CallIsSafe(s, call);
      case Restart => RestartKeepsInv(s);
    }
  }

  lemma RunStep(actions: seq<Action>, i: nat)
    requires i < |actions|
    ensures Run(actions[..i + 1]) == Act(Run(actions[..i]), actions[i])
  {
    assert actions[..i + 1][..i] == actions[..i];
  }

  /** Records and rows are only added. */
  ghost predicate CoreKept(c: Core, d: Core) {
    && (forall k :: k in c.records ==> k in d.records && d.records[k] == c.records[k])
    && (forall e :: e in c.events ==> e in d.events && c.events[e] <= d.events[e])
  }

  ghost predicate DiskKept(s: Sys, t: Sys) {
    forall o :: o in s.disk ==> o in t.disk && SameBinding(s.disk[o], t.disk[o])
  }

  lemma BindingsKeepDisk(s: Sys, t: Sys, call: Call)
    requires BindingsKept(s.core, s, t, call)
    ensures DiskKept(s, t)
  {
    forall o | o in s.disk ensures o in t.disk && SameBinding(s.disk[o], t.disk[o]) {
      assert BindingKept(s.core, s, t, call, o);
    }
  }

  lemma StepKeepsRecords(s: Sys, action: Action)
    requires Inv(s)
    ensures CoreKept(s.core, Act(s, action).core) && DiskKept(s, Act(s, action))
  {
    if action.Ask? {
      hide Perform, Inv, ConflictIsReal;
      CallIsSafe(s, action.call);
      CallKeepsBindings(s, action.call);
      BindingsKeepDisk(s, Act(s, action), action.call);
    }
  }

  lemma KeptComposes(s: Sys, t: Sys, u: Sys)
    requires CoreKept(s.core, t.core) && CoreKept(t.core, u.core) && DiskKept(s, t) && DiskKept(t, u)
    ensures CoreKept(s.core, u.core) && DiskKept(s, u)
  {
  }

  /** What Core has recorded and what control state has bound on disk lasts for the rest of the run. */
  lemma {:induction false} RunKeepsRecords(actions: seq<Action>, i: nat, j: nat)
    requires i <= j <= |actions|
    ensures CoreKept(Run(actions[..i]).core, Run(actions[..j]).core)
    ensures DiskKept(Run(actions[..i]), Run(actions[..j]))
    decreases j
  {
    if i < j {
      hide Run, Act, Inv, CoreKept, DiskKept;
      RunKeepsRecords(actions, i, j - 1);
      RunKeepsInv(actions[..j - 1]);
      RunStep(actions, j - 1);
      StepKeepsRecords(Run(actions[..j - 1]), actions[j - 1]);
      KeptComposes(Run(actions[..i]), Run(actions[..j - 1]), Run(actions[..j]));
    }
  }

  /** What the i-th action answers, when it is a call. */
  function OutcomeAt(actions: seq<Action>, i: nat): (o: Option<Outcome>)
    requires i < |actions|
  {
    if actions[i].Restart? then None
    else
      var r := Perform(Run(actions[..i]), actions[i].call);
      if r.Over? then Some(r.outcome) else None
  }

  predicate Answers(actions: seq<Action>, i: nat, result: Id) {
    i < |actions| && OutcomeAt(actions, i) == Some(Returned(result))
  }

  lemma {:induction false} AnswerIsRecorded(actions: seq<Action>, i: nat, result: Id)
    requires Answers(actions, i, result)
    ensures Effected(Run(actions).core, actions[i].call.Op(), result)
  {
    RunKeepsInv(actions[..i]);
    CallIsSafe(Run(actions[..i]), actions[i].call);
    RunStep(actions, i);
    RunKeepsRecords(actions, i + 1, |actions|);
    assert actions[..|actions|] == actions;
  }

  /** The result of an operation stands at one place in Core: the event it created, or the revision after the one it
      was prepared for. */
  ghost predicate StandsAt(c: Core, result: Id, e: Id, i: nat) {
    e in c.events && i < |c.events[e]| && c.events[e][i].id == result
  }

  lemma EffectStands(s: Sys, o: OpKey)
    requires Inv(s) && EffectKey(o) in s.core.records
    ensures exists e: Id, k: nat :: StandsAt(s.core, s.core.records[EffectKey(o)].result, e, k) && MadeBy(s.core, s.core.events[e][k], o)
  {
    assert CommandOk(s.core, EffectKey(o));
    var r := s.core.records[EffectKey(o)];
    var e, k := if r.payload.EventPayload? then r.result else r.payload.event, if r.payload.EventPayload? then 0 else r.payload.base;
    assert StandsAt(s.core, r.result, e, k) && MadeBy(s.core, s.core.events[e][k], o);
  }

  /** Exactly once: whatever crashes, faults and other operations lie between them, calls that return answer with the same
      id if and only if they used the same key for the same operation; and the row of that id is in Core, made by that
      operation and no other. */
  lemma ExactlyOnce(actions: seq<Action>, i: nat, j: nat, e: Id, f: Id)
    requires Answers(actions, i, e) && Answers(actions, j, f)
    ensures e == f <==> actions[i].call.Op() == actions[j].call.Op()
    ensures exists event, k :: StandsAt(Run(actions).core, e, event, k)
    ensures forall o :: Effected(Run(actions).core, o, e) ==> o == actions[i].call.Op()
  {
    var c := Run(actions).core;
    AnswerIsRecorded(actions, i, e);
    AnswerIsRecorded(actions, j, f);
    RunKeepsInv(actions);
    EffectStands(Run(actions), actions[i].call.Op());
    forall o | Effected(c, o, e) ensures o == actions[i].call.Op() {
      assert SoleMaker(c, o, actions[i].call.Op());
    }
    assert SoleMaker(c, actions[i].call.Op(), actions[j].call.Op());
  }

  /** One id is one row: no effect is written twice. */
  lemma OneRowForEachId(actions: seq<Action>, e: Id, i: nat, f: Id, j: nat)
    requires var c := Run(actions).core; e in c.events && i < |c.events[e]| && f in c.events && j < |c.events[f]|
    requires var c := Run(actions).core; c.events[e][i].id == c.events[f][j].id
    ensures e == f && i == j
  {
    var c := Run(actions).core;
    RunKeepsInv(actions);
    assert RowOk(c, e, i) && RowOk(c, f, j);
    var o :| MadeBy(c, c.events[e][i], o);
    var p :| MadeBy(c, c.events[f][j], p);
    assert SoleMaker(c, o, p);
  }

  /** The history of an event: each revision was made by one operation, the first by a creation, each later one by an
      append that was prepared for exactly the revision before it. */
  lemma RevisionsAreAppends(actions: seq<Action>, e: Id, i: nat)
    requires e in Run(actions).core.events && i < |Run(actions).core.events[e]|
    ensures var s := Run(actions);
      exists o :: MadeBy(s.core, s.core.events[e][i], o) && o in s.disk &&
        if i == 0 then o.kind == Creating
        else o.kind == Appending && s.disk[o].meaning.NewRevision? && s.disk[o].meaning.event == e && s.disk[o].effective.base == i
  {
    var s := Run(actions);
    RunKeepsInv(actions);
    assert RowOk(s.core, e, i);
    var o :| MadeBy(s.core, s.core.events[e][i], o);
    assert CommandOk(s.core, EffectKey(o)) && ControlOk(s, o);
    assert MadeBy(s.core, s.core.events[e][i], o) && o in s.disk;
  }

  /** The client keys for which a run ever called create_event. */
  function KeysOf(actions: seq<Action>): set<string> {
    set i | 0 <= i < |actions| && actions[i].Ask? && actions[i].call.meaning.NewEvent? :: actions[i].call.key
  }

  /** The call is somewhere in the run. */
  ghost predicate Asked(actions: seq<Action>, o: OpKey) {
    exists i :: 0 <= i < |actions| && actions[i].Ask? && actions[i].call.Op() == o
  }

  lemma {:induction false} BindingsComeFromCalls(actions: seq<Action>, o: OpKey)
    requires o in Run(actions).memory
    ensures BoundIn(actions, o, Run(actions).memory[o])
  {
    if actions != [] {
      var n := |actions| - 1;
      var s, last, t := Run(actions[..n]), actions[n], Run(actions);
      RunKeepsInv(actions[..n]);
      assert ControlOk(s, o);
      if last.Ask? {
        CallKeepsBindings(s, last.call);
        assert BindingKept(s.core, s, t, last.call, o);
      }
      if o in s.memory && SameBinding(s.memory[o], t.memory[o]) {
        BindingsComeFromCalls(actions[..n], o);
        var i :| BoundAt(actions[..n], i, o, s.memory[o]);
        assert actions[..n][..i] == actions[..i];
        assert BoundAt(actions, i, o, t.memory[o]);
      } else {
        assert BoundAt(actions, n, o, t.memory[o]);
      }
    }
  }

  /** The i-th call bound a slot: it used that meaning, and its clock and what Core showed it then are pinned. */
  ghost predicate BoundAt(actions: seq<Action>, i: int, o: OpKey, op: Operation) {
    0 <= i < |actions| && actions[i].Ask? && actions[i].call.Op() == o && BoundBy(Run(actions[..i]).core, op, actions[i].call)
  }

  ghost predicate BoundIn(actions: seq<Action>, o: OpKey, op: Operation) {
    exists i :: BoundAt(actions, i, o, op)
  }

  lemma BoundIsAsked(actions: seq<Action>, o: OpKey)
    requires o in Run(actions).memory
    ensures Asked(actions, o)
  {
    BindingsComeFromCalls(actions, o);
    var i :| BoundAt(actions, i, o, Run(actions).memory[o]);
    assert actions[i].Ask?;
  }

  lemma InjectionBound<K, V>(image: set<V>, codomain: set<K>, of: map<V, K>)
    requires of.Keys == image
    requires forall v :: v in image ==> of[v] in codomain
    requires forall v, w :: v in image && w in image && of[v] == of[w] ==> v == w
    ensures |image| <= |codomain|
    decreases image
  {
    if image != {} {
      var v :| v in image;
      var rest := map w | w in of && w != v :: of[w];
      InjectionBound(image - {v}, codomain - {of[v]}, rest);
    }
  }

  /** However often the calls are retried, Core never holds more events than distinct keys were used to create one. */
  lemma AtMostOneEventPerKey(actions: seq<Action>)
    ensures |Run(actions).core.events.Keys| <= |KeysOf(actions)|
  {
    var s := Run(actions);
    RunKeepsInv(actions);
    forall e | e in s.core.events ensures Created(s.core, e, CreatorOf(s.core, e)) && CreatorOf(s.core, e) in KeysOf(actions) {
      CreatorIsAsked(actions, e);
    }
    var of := map e | e in s.core.events :: CreatorOf(s.core, e);
    forall e, f | e in s.core.events && f in s.core.events && of[e] == of[f] ensures e == f {
      assert Created(s.core, e, of[e]) && Created(s.core, f, of[f]);
    }
    InjectionBound(s.core.events.Keys, KeysOf(actions), of);
  }

  ghost predicate Created(c: Core, e: Id, key: string) {
    Effected(c, OpKey(Creating, key), e)
  }

  ghost function CreatorOf(c: Core, e: Id): (key: string)
    ensures (exists k :: Created(c, e, k)) ==> Created(c, e, key)
  {
    if exists k :: Created(c, e, k) then
      var k :| Created(c, e, k);
      k
    else ""
  }

  lemma CreatorIsAsked(actions: seq<Action>, e: Id)
    requires e in Run(actions).core.events
    ensures Created(Run(actions).core, e, CreatorOf(Run(actions).core, e)) && CreatorOf(Run(actions).core, e) in KeysOf(actions)
  {
    var s := Run(actions);
    RunKeepsInv(actions);
    assert RowOk(s.core, e, 0);
    var o :| MadeBy(s.core, s.core.events[e][0], o);
    assert CommandOk(s.core, EffectKey(o)) && Created(s.core, e, o.key);
    var key := CreatorOf(s.core, e);
    assert ControlOk(s, OpKey(Creating, key));
    BoundIsAsked(actions, OpKey(Creating, key));
    var i :| 0 <= i < |actions| && actions[i].Ask? && actions[i].call.Op() == OpKey(Creating, key);
    assert actions[i].call.meaning.NewEvent?;
  }

  /** The row holds what the meaning of call i and the values pinned by call j give, which used the same slot and meaning
      no later. */
  ghost predicate PinnedBy(actions: seq<Action>, i: nat, j: nat, row: Row)
    requires i < |actions| && actions[i].Ask?
  {
    && j <= i && actions[j].Ask? && actions[j].call.Op() == actions[i].call.Op() && actions[j].call.meaning == actions[i].call.meaning
    && var c := Run(actions[..j]).core;
       && Visible(c, actions[j].call.meaning)
       && exists observation :: row.payload == EffectOf(actions[i].call.meaning, EffectiveOf(c, actions[j].call.meaning, actions[j].call.now), observation)
  }

  /** The row behind a returned id has the content the caller asked for, with the values pinned by the call that prepared
      the operation first, whatever clock the returning call had and whatever became of the event since. */
  lemma ReturnedEventIsPinned(actions: seq<Action>, i: nat, result: Id)
    requires Answers(actions, i, result)
    ensures var c := Run(actions[..i + 1]).core;
      exists e: Id, k: nat, j: nat :: StandsAt(c, result, e, k) && PinnedBy(actions, i, j, c.events[e][k])
  {
    var upTo := actions[..i + 1];
    var t, o := Run(upTo), actions[i].call.Op();
    AnswerIsBound(actions, i, result);
    RunKeepsInv(upTo);
    BindingsComeFromCalls(upTo, o);
    var j :| BoundAt(upTo, j, o, t.memory[o]);
    assert upTo[..j] == actions[..j];
    hide Run, Inv, CoreOk, Visible;
    EffectStands(t, o);
    var e: Id, k: nat :| StandsAt(t.core, result, e, k) && MadeBy(t.core, t.core.events[e][k], o);
    assert PinnedBy(actions, i, j, t.core.events[e][k]);
  }

  lemma AnswerIsBound(actions: seq<Action>, i: nat, result: Id)
    requires Answers(actions, i, result)
    ensures var t, call := Run(actions[..i + 1]), actions[i].call;
      Inv(t) && Effected(t.core, call.Op(), result) && call.Op() in t.memory && t.memory[call.Op()].meaning == call.meaning
      && RecordOk(t.core, call.Op(), t.memory[call.Op()])
  {
    hide Perform, ConflictIsReal, OnlyThisKey;
    RunKeepsInv(actions[..i]);
    CallIsSafe(Run(actions[..i]), actions[i].call);
    RunStep(actions, i);
    assert ControlOk(Run(actions[..i + 1]), actions[i].call.Op());
  }

  /** Once a call has returned for a slot, every later call with another meaning conflicts and changes nothing. */
  lemma ReuseConflicts(actions: seq<Action>, i: nat, j: nat, result: Id)
    requires i < j < |actions| && actions[j].Ask? && Answers(actions, i, result)
    requires actions[j].call.Op() == actions[i].call.Op() && actions[j].call.meaning != actions[i].call.meaning
    ensures OutcomeAt(actions, j) == Some(if Visible(Run(actions[..j]).core, actions[j].call.meaning) then KeyConflict else NotVisible)
    ensures Run(actions[..j + 1]) == Run(actions[..j])
  {
    hide Visible;
    var t, u, call := Run(actions[..i + 1]), Run(actions[..j]), actions[i].call;
    RunKeepsInv(actions[..i]);
    CallIsSafe(Run(actions[..i]), call);
    RunStep(actions, i);
    RunKeepsInv(actions[..i + 1]);
    RunKeepsInv(actions[..j]);
    RunKeepsRecords(actions, i + 1, j);
    assert ControlOk(t, call.Op()) && ControlOk(u, call.Op());
    ChangedMeaningConflicts(u, actions[j].call);
    RunStep(actions, j);
  }

  // ---- what an undisturbed call answers ----

  predicate Undisturbed(call: Call) { call.faults == map[] && call.writes >= 7 }

  /** The operation as the call finds it, or prepares it. */
  function OperationFor(s: Sys, call: Call): Operation
    requires Visible(s.core, call.meaning)
  {
    if call.Op() in s.memory then s.memory[call.Op()]
    else Operation(call.meaning, Prepared, 0, EffectiveOf(s.core, call.meaning, call.now))
  }

  /** The answer of a call that meets no fault and is not cut short, from what it finds. */
  ghost predicate Expected(s: Sys, call: Call, outcome: Outcome) {
    if !Visible(s.core, call.meaning) then outcome == NotVisible
    else
      var op := OperationFor(s, call);
      if op.meaning != call.meaning then outcome == KeyConflict
      else if op.state.Committed? then outcome == Returned(op.state.result)
      else if op.state == Failed then outcome == PermanentlyFailed
      else if Foreign(s.core, call.Op(), op) then outcome == CoreConflict
      else if Moved(s.core, call.Op(), op) then outcome == RevisionConflict
      else outcome.Returned?
  }

  lemma UndisturbedDo(p: Progress, call: Call, step: Step)
    requires p.Going? && Ready(p.sys, call) && Before(p.sys, call, step) && p.left >= 2 && call.faults == map[]
    ensures var q, k, payload := Do(p, call, step), KeyOf(call, step), PinnedPayload(p.sys, call, step);
      if k in p.sys.core.records && p.sys.core.records[k].payload != payload then q.Over? && q.outcome == CoreConflict
      else if k !in p.sys.core.records && !Applies(p.sys.core, payload) then q.Over? && q.outcome == RevisionConflict
      else
        && q.Going? && q.left >= p.left - 1 && Ready(q.sys, call) && Reached(q.sys, call, step) && q.sys.memory == p.sys.memory
        && q.sys.core == if k in p.sys.core.records then p.sys.core else Commit(p.sys.core, k, payload)
  {
    DoKeepsInv(p, call, step);
    DoIsCommand(p, call, step);
    hide Inv, Ready, Commit, PayloadFor, Applies;
  }

  lemma UndisturbedBegin(s: Sys, call: Call)
    requires Inv(s) && Undisturbed(call) && Visible(s.core, call.meaning)
    requires var op := OperationFor(s, call); op.meaning == call.meaning && !op.state.Committed? && op.state != Failed
    ensures var p := Begin(s, call);
      && p.Going? && p.left >= 5 && Ready(p.sys, call) && p.sys.core == s.core
      && SameBinding(p.sys.memory[call.Op()], OperationFor(s, call))
  {
    BeginKeepsInv(s, call);
    hide Inv, Visible;
  }

  /** The capture succeeds exactly when the key's source is missing or the operation's own. */
  lemma CaptureSteps(p: Progress, call: Call)
    requires p.Going? && Ready(p.sys, call) && p.left >= 5 && call.faults == map[]
    ensures var q, o, op := Do(Do(p, call, Contract), call, Capture), call.Op(), p.sys.memory[call.Op()];
      if CaptureKey(call.key) in p.sys.core.records && !Captured(p.sys.core, o, op) then q.Over? && q.outcome == CoreConflict
      else
        && q.Going? && q.left >= p.left - 2 && Ready(q.sys, call) && q.sys.memory == p.sys.memory && q.sys.core.events == p.sys.core.events
        && Captured(q.sys.core, o, op)
        && (forall k :: k in {ObserveKey(call.key), EffectKey(o)} ==>
              (k in q.sys.core.records <==> k in p.sys.core.records) &&
              (k in p.sys.core.records ==> q.sys.core.records[k] == p.sys.core.records[k]))
        && (CaptureKey(call.key) in p.sys.core.records ==> q.sys.core.records[CaptureKey(call.key)] == p.sys.core.records[CaptureKey(call.key)])
  {
    hide Inv, Do;
    UndisturbedDo(p, call, Contract);
    ContractMatches(p.sys, call);
    UndisturbedDo(Do(p, call, Contract), call, Capture);
  }

  /** The evidence steps succeed exactly when no foreign evidence is there. */
  lemma EvidenceSteps(p: Progress, call: Call)
    requires p.Going? && Ready(p.sys, call) && p.left >= 5 && call.faults == map[]
    ensures var q := Do(Do(Do(p, call, Contract), call, Capture), call, Observe);
      if Foreign(p.sys.core, call.Op(), p.sys.memory[call.Op()]) then q.Over? && q.outcome == CoreConflict
      else
        && q.Going? && q.left >= p.left - 3 && Ready(q.sys, call) && Reached(q.sys, call, Observe) && q.sys.memory == p.sys.memory
        && q.sys.core.events == p.sys.core.events
        && (EffectKey(call.Op()) in q.sys.core.records <==> EffectKey(call.Op()) in p.sys.core.records)
  {
    assert EvidenceOk(p.sys, call.key);
    CaptureSteps(p, call);
    hide Inv, Do;
    var q := Do(Do(p, call, Contract), call, Capture);
    if q.Going? {
      UndisturbedDo(q, call, Observe);
    } else {
      OverStays(q, call, Observe);
    }
  }

  lemma OverStays(p: Progress, call: Call, step: Step)
    requires p.Over?
    ensures Do(p, call, step) == p
  {
  }

  lemma ContractMatches(s: Sys, call: Call)
    requires Ready(s, call)
    ensures var k := KeyOf(call, Contract); k in s.core.records ==> s.core.records[k].payload == PinnedPayload(s, call, Contract)
  {
    assert CommandOk(s.core, KeyOf(call, Contract));
  }

  /** The answer of an undisturbed call, exactly, in every state. */
  lemma AnswerExactly(s: Sys, call: Call)
    requires Inv(s) && Undisturbed(call)
    ensures var r := Perform(s, call); r.Over? && Expected(s, call, r.outcome)
  {
    CallIsSafe(s, call);
    if Visible(s.core, call.meaning) {
      var op := OperationFor(s, call);
      if op.meaning == call.meaning && !op.state.Committed? && op.state != Failed {
        UndisturbedBegin(s, call);
        var p := Begin(s, call);
        BindingCarriesOver(s.core, call.Op(), p.sys.memory[call.Op()], op);
        EvidenceSteps(p, call);
        var q := Do(Do(Do(p, call, Contract), call, Capture), call, Observe);
        if q.Going? {
          EffectStep(q, call);
        }
      }
    }
  }

  lemma EffectStep(p: Progress, call: Call)
    requires p.Going? && Ready(p.sys, call) && p.left >= 2 && call.faults == map[] && Reached(p.sys, call, Observe)
    ensures var q := Complete(Do(p, call, Effect), call);
      if Moved(p.sys.core, call.Op(), p.sys.memory[call.Op()]) then q.Over? && q.outcome == RevisionConflict
      else q.Over? && q.outcome.Returned?
  {
    ReplayIfRecorded(p.sys, call);
    assert ControlOk(p.sys, call.Op());
    hide Inv, Do;
    UndisturbedDo(p, call, Effect);
  }

  lemma ReplayIfRecorded(s: Sys, call: Call)
    requires Ready(s, call) && Reached(s, call, Observe)
    ensures EffectKey(call.Op()) in s.core.records ==> s.core.records[EffectKey(call.Op())].payload == PinnedPayload(s, call, Effect)
  {
    if EffectKey(call.Op()) in s.core.records { ReplayMatches(s, call, Effect); }
  }

  // ---- when an operation can still be finished ----

  /** No call for this slot met a refusal of Core. */
  predicate NeverRefused(actions: seq<Action>, o: OpKey) {
    forall i :: 0 <= i < |actions| && actions[i].Ask? && actions[i].call.Op() == o ==> Refused !in actions[i].call.faults.Values
  }

  /** A failed operation that Core never refused was in conflict, and still is. */
  ghost predicate FailsForCause(s: Sys, o: OpKey) {
    && (o in s.memory && s.memory[o].state == Failed ==> Foreign(s.core, o, s.memory[o]) || Moved(s.core, o, s.memory[o]))
    && (o in s.disk && s.disk[o].state == Failed ==> Foreign(s.core, o, s.disk[o]) || Moved(s.core, o, s.disk[o]))
  }

  /** An effect is recorded while its event stands at the base, or never: once the event has the next revision, an effect
      recorded later was recorded before. */
  lemma EffectIsNotLate(s: Sys, t: Sys, o: OpKey, op: Operation)
    requires Inv(s) && Inv(t) && CoreKept(s.core, t.core) && RecordOk(t.core, o, op)
    requires op.meaning.NewRevision? && op.meaning.event in s.core.events && |s.core.events[op.meaning.event]| > op.effective.base
    requires EffectKey(o) in t.core.records
    ensures EffectKey(o) in s.core.records
  {
    var event, base := op.meaning.event, op.effective.base;
    assert CommandOk(t.core, EffectKey(o)) && RowOk(s.core, event, base);
    var row := s.core.events[event][base];
    assert t.core.events[event][base] == row;
    var p :| MadeBy(s.core, row, p);
    assert SoleMaker(t.core, o, p);
  }

  /** A conflict is there to stay: records are never taken back, and an event that has moved on keeps its revisions. */
  lemma ConflictStays(s: Sys, t: Sys, o: OpKey, op: Operation)
    requires Inv(s) && Inv(t) && CoreKept(s.core, t.core) && RecordOk(t.core, o, op)
    ensures Foreign(s.core, o, op) ==> Foreign(t.core, o, op)
    ensures Moved(s.core, o, op) ==> Moved(t.core, o, op)
  {
    assert EvidenceOk(s, o.key);
    if Moved(s.core, o, op) && EffectKey(o) in t.core.records {
      EffectIsNotLate(s, t, o, op);
    }
  }

  lemma CoreMovesOn(s: Sys, t: Sys, o: OpKey)
    requires Inv(s) && Inv(t) && CoreKept(s.core, t.core) && FailsForCause(s, o) && t.memory == s.memory && t.disk == s.disk
    ensures FailsForCause(t, o)
  {
    assert ControlOk(t, o) && ControlOk(s, o);
    if o in s.memory { ConflictStays(s, t, o, s.memory[o]); }
    if o in s.disk { ConflictStays(s, t, o, s.disk[o]); }
  }

  lemma SaveKeepsCause(s: Sys, left: nat, call: Call, o: OpKey)
    requires FailsForCause(s, o)
    ensures FailsForCause(Save(s, left, call).sys, o)
  {
    hide Foreign, Moved;
  }

  lemma BeginKeepsCause(s: Sys, call: Call, o: OpKey)
    requires Inv(s) && FailsForCause(s, o)
    ensures FailsForCause(Begin(s, call).sys, o)
  {
    hide Foreign, Moved, Visible;
    assert ControlOk(s, call.Op()) && ControlOk(s, o);
  }

  lemma FailureKeepsCause(s: Sys, left: nat, call: Call, retryable: bool, outcome: Outcome, o: OpKey)
    requires call.Op() in s.memory && FailsForCause(s, o)
    requires o == call.Op() && !retryable ==> Foreign(s.core, o, s.memory[o]) || Moved(s.core, o, s.memory[o])
    ensures FailsForCause(RecordFailure(s, left, call, retryable, outcome).sys, o)
  {
    var op := s.memory[call.Op()].(state := if retryable then RetryPending else Failed);
    SameCause(s.core, call.Op(), s.memory[call.Op()], op);
    hide Foreign, Moved;
    SaveKeepsCause(Put(s, call.Op(), op), left, call, o);
  }

  lemma SameCause(c: Core, o: OpKey, a: Operation, b: Operation)
    requires SameBinding(a, b)
    ensures Foreign(c, o, a) <==> Foreign(c, o, b)
    ensures Moved(c, o, a) <==> Moved(c, o, b)
  {
  }

  lemma DoKeepsCause(p: Progress, call: Call, step: Step, o: OpKey)
    requires p.Going? ==> Ready(p.sys, call) && Before(p.sys, call, step)
    requires p.Over? ==> Inv(p.sys)
    requires FailsForCause(p.sys, o)
    requires o == call.Op() ==> Refused !in call.faults.Values
    ensures var q := Do(p, call, step);
      && FailsForCause(q.sys, o) && Inv(q.sys)
      && (q.Going? ==> Ready(q.sys, call) && Reached(q.sys, call, step))
  {
    DoKeepsInv(p, call, step);
    if p.Going? {
      DoIsCommand(p, call, step);
      var q, k := Do(p, call, step), KeyOf(call, step);
      hide Inv, Commit, PayloadFor, FailsForCause, OnlyThisKey;
      if step in call.faults && call.faults[step] == Busy {
        FailureKeepsCause(p.sys, p.left, call, true, StoreError, o);
      } else if k in p.sys.core.records {
        ReplayMatches(p.sys, call, step);
        if q.Over? { FailureKeepsCause(p.sys, p.left, call, false, CoreConflict, o); }
      } else if step in call.faults {
        assert call.faults[step] in call.faults.Values;
        FailureKeepsCause(p.sys, p.left, call, false, StoreError, o);
      } else if !Applies(p.sys.core, PinnedPayload(p.sys, call, step)) {
        NotAppliesIsMoved(p.sys, call, step);
        FailureKeepsCause(p.sys, p.left, call, false, RevisionConflict, o);
      } else if p.left > 0 {
        OnlyThisKeyKeeps(p.sys.core, q.sys.core, call);
        CoreMovesOn(p.sys, q.sys, o);
      } else {
        SaveKeepsCause(p.sys, 0, call, o);
      }
    }
  }

  lemma OnlyThisKeyKeeps(c: Core, d: Core, call: Call)
    requires OnlyThisKey(c, d, call)
    ensures CoreKept(c, d)
  {
  }

  lemma NotAppliesIsMoved(s: Sys, call: Call, step: Step)
    requires Ready(s, call) && KeyOf(call, step) !in s.core.records && !Applies(s.core, PinnedPayload(s, call, step))
    ensures Moved(s.core, call.Op(), s.memory[call.Op()])
  {
    assert ControlOk(s, call.Op());
  }

  lemma CompleteKeepsCause(p: Progress, call: Call, o: OpKey)
    requires FailsForCause(p.sys, o)
    ensures FailsForCause(Complete(p, call).sys, o)
  {
    hide Foreign, Moved;
  }

  lemma CallKeepsCause(s: Sys, call: Call, o: OpKey)
    requires Inv(s) && FailsForCause(s, o)
    requires o == call.Op() ==> Refused !in call.faults.Values
    ensures FailsForCause(Perform(s, call).sys, o)
  {
    hide Inv, OnlyThisKey, Begin, Do, Complete, FailsForCause, Captured, Observed, ConflictIsReal;
    BeginKeepsInv(s, call);
    BeginKeepsCause(s, call, o);
    var p0 := Begin(s, call);
    DoKeepsCause(p0, call, Contract, o);
    var p1 := Do(p0, call, Contract);
    DoKeepsCause(p1, call, Capture, o);
    var p2 := Do(p1, call, Capture);
    DoKeepsCause(p2, call, Observe, o);
    var p3 := Do(p2, call, Observe);
    DoKeepsCause(p3, call, Effect, o);
    CompleteKeepsCause(Do(p3, call, Effect), call, o);
  }

  /** An operation fails for good only where Core refused one of its commands or a conflict is in the way: busy stores and
      crashes leave it open. */
  lemma {:induction false} OnlyRefusalIsFinal(actions: seq<Action>, o: OpKey)
    requires NeverRefused(actions, o)
    ensures FailsForCause(Run(actions), o)
  {
    if actions != [] {
      var n := |actions| - 1;
      RunKeepsInv(actions[..n]);
      OnlyRefusalIsFinal(actions[..n], o);
      hide FailsForCause;
      match actions[n]
      case Ask(call) => CallKeepsCause(Run(actions[..n]), call, o);
      case Restart => RestartKeepsCause(Run(actions[..n]), o);
    }
  }

  lemma RestartKeepsCause(s: Sys, o: OpKey)
    requires FailsForCause(s, o)
    ensures FailsForCause(s.(memory := s.disk), o)
  {
  }

  /** After any run in which Core never refused the operation, one undisturbed call with the bound meaning returns exactly
      when its event is visible, the evidence under its key is not another operation's, and its event has not moved on. */
  lemma ReturnsExactly(actions: seq<Action>, call: Call)
    requires NeverRefused(actions, call.Op()) && Undisturbed(call)
    requires call.Op() in Run(actions).memory ==> Run(actions).memory[call.Op()].meaning == call.meaning
    ensures var s := Run(actions);
      Perform(s, call).Over? &&
      (Perform(s, call).outcome.Returned? <==>
         Visible(s.core, call.meaning) && !Foreign(s.core, call.Op(), OperationFor(s, call)) && !Moved(s.core, call.Op(), OperationFor(s, call)))
  {
    var s := Run(actions);
    RunKeepsInv(actions);
    OnlyRefusalIsFinal(actions, call.Op());
    AnswerExactly(s, call);
    assert ControlOk(s, call.Op());
    hide Run, Perform, Visible;
  }

  // ---- client keys shared by the two operations ----

  function Other(o: OpKey): OpKey { OpKey(if o.kind == Creating then Appending else Creating, o.key) }

  lemma ForeignIsOther(s: Sys, o: OpKey, op: Operation)
    requires Inv(s) && Foreign(s.core, o, op) && (o in s.disk ==> SameBinding(s.disk[o], op))
    ensures Other(o) in s.disk
  {
    assert EvidenceOk(s, o.key);
    if CaptureKey(o.key) in s.core.records && !Captured(s.core, o, op) {
      var kind :| OpKey(kind, o.key) in s.disk && Captured(s.core, OpKey(kind, o.key), s.disk[OpKey(kind, o.key)]);
      assert kind != o.kind;
    } else {
      var kind :| OpKey(kind, o.key) in s.disk && Observed(s.core, OpKey(kind, o.key), s.disk[OpKey(kind, o.key)]);
      assert kind != o.kind;
    }
  }

  /** A Core conflict comes from sharing only: the same client key was used for the other operation before. */
  lemma ConflictsComeFromSharing(actions: seq<Action>, i: nat)
    requires i < |actions| && OutcomeAt(actions, i) == Some(CoreConflict)
    ensures Asked(actions[..i], Other(actions[i].call.Op()))
  {
    var s, call := Run(actions[..i]), actions[i].call;
    var t := Perform(s, call).sys;
    var o := call.Op();
    RunKeepsInv(actions[..i]);
    CallIsSafe(s, call);
    CallKeepsBindings(s, call);
    assert ControlOk(t, o);
    ForeignIsOther(t, o, t.memory[o]);
    assert BindingKept(s.core, s, t, call, Other(o)) && ControlOk(t, Other(o)) && ControlOk(s, Other(o));
    BoundIsAsked(actions[..i], Other(o));
  }

  /** A key that is used for create_event only is never in the way of itself: after any run in which Core never refused it,
      one undisturbed call with the bound meaning returns. */
  lemma EventuallyReturns(actions: seq<Action>, call: Call)
    requires NeverRefused(actions, call.Op()) && Undisturbed(call) && call.meaning.NewEvent? && !Asked(actions, Other(call.Op()))
    requires call.Op() in Run(actions).memory ==> Run(actions).memory[call.Op()].meaning == call.meaning
    ensures var r := Perform(Run(actions), call); r.Over? && r.outcome.Returned?
  {
    var s := Run(actions);
    ReturnsExactly(actions, call);
    RunKeepsInv(actions);
    assert ControlOk(s, call.Op()) && ControlOk(s, Other(call.Op()));
    if Foreign(s.core, call.Op(), OperationFor(s, call)) {
      ForeignIsOther(s, call.Op(), OperationFor(s, call));
      BoundIsAsked(actions, Other(call.Op()));
    }
  }

  lemma NoNewRows(c: Core, d: Core, call: Call)
    requires OnlyThisKey(c, d, call) && EffectKey(call.Op()) !in d.records && forall e :: e in d.events ==> d.events[e] != []
    ensures d.events == c.events
  {
    forall e | e in d.events ensures e in c.events && d.events[e] == c.events[e] {
      assert NewRowIsTheCalls(c, d, call, e, if e in c.events then |c.events[e]| else 0);
    }
  }

  lemma ForeignEvidenceCloses(s: Sys, call: Call, again: Call)
    requires Inv(s) && Undisturbed(call) && Visible(s.core, call.meaning) && call.Op() !in s.memory
    requires CaptureKey(call.key) in s.core.records && s.core.records[CaptureKey(call.key)].payload.SourcePayload?
    requires s.core.records[CaptureKey(call.key)].payload.content != call.meaning.content
    requires Undisturbed(again) && again.Op() == call.Op() && again.meaning == call.meaning
    ensures var r := Perform(s, call);
      && r.Over? && r.outcome == CoreConflict && r.sys.core.events == s.core.events
      && Perform(r.sys, again).Over? && Perform(r.sys, again).outcome == PermanentlyFailed
  {
    AnswerExactly(s, call);
    CallIsSafe(s, call);
    var r := Perform(s, call);
    AnswerExactly(r.sys, again);
    assert ControlOk(r.sys, call.Op()) && CoreOk(r.sys.core);
    hide Perform, Inv;
    NoNewRows(s.core, r.sys.core, call);
  }

  /** Sharing a key closes the later operation: once a call has returned, an undisturbed first call of the other operation
      under the same key with other content meets the conflict, changes no event, and is never answered again. */
  lemma SharedKeyCloses(actions: seq<Action>, i: nat, result: Id, call: Call, again: Call)
    requires Answers(actions, i, result) && call.Op() == Other(actions[i].call.Op()) && call.meaning.content != actions[i].call.meaning.content
    requires Undisturbed(call) && Visible(Run(actions).core, call.meaning) && call.Op() !in Run(actions).memory
    requires Undisturbed(again) && again.Op() == call.Op() && again.meaning == call.meaning
    ensures var s := Run(actions);
      var r := Perform(s, call);
      && r.Over? && r.outcome == CoreConflict && r.sys.core.events == s.core.events
      && Perform(r.sys, again).Over? && Perform(r.sys, again).outcome == PermanentlyFailed
  {
    AnswerIsBound(actions, i, result);
    RunKeepsRecords(actions, i + 1, |actions|);
    assert actions[..|actions|] == actions;
    RunKeepsInv(actions);
    hide Run, Perform, Inv, Visible;
    ForeignEvidenceCloses(Run(actions), call, again);
  }

  // ---- refinement of one atomic step ----

  /** The abstract store: one entry per operation that took effect. */
  datatype Entry = Entry(meaning: Meaning, effective: Effective, result: Id)

  ghost function Effects(s: Sys): (effects: map<OpKey, Entry>)
    ensures forall o :: o in effects <==> o in s.disk && EffectKey(o) in s.core.records
    ensures forall o :: o in effects ==> effects[o] == Entry(s.disk[o].meaning, s.disk[o].effective, s.core.records[EffectKey(o)].result)
  {
    map o | o in s.disk && EffectKey(o) in s.core.records :: Entry(s.disk[o].meaning, s.disk[o].effective, s.core.records[EffectKey(o)].result)
  }

  /** The abstract step: an entry that is there stays; otherwise one for this call's meaning may be added. */
  ghost predicate AtomicStep(before: map<OpKey, Entry>, after: map<OpKey, Entry>, call: Call) {
    || after == before
    || (call.Op() !in before && exists entry :: after == before[call.Op() := entry] && entry.meaning == call.meaning)
  }

  /** An entry's row: the event it created, or the revision of its event right after the base it was prepared for. */
  ghost predicate EntryStands(c: Core, entry: Entry) {
    match entry.meaning
    case NewEvent(_, _, _, _, _, _, _, _) => StandsAt(c, entry.result, entry.result, 0)
    case NewRevision(_, _, event, _, _, _) => StandsAt(c, entry.result, event, entry.effective.base)
  }

  /** A call, for all its saves and commits, is one atomic step of the abstract store, taken at most once for an operation;
      it has been taken whenever the call returns; and Core holds the rows of the store and no others. */
  lemma RefinesAtomicStep(s: Sys, call: Call)
    requires Inv(s)
    ensures var r := Perform(s, call);
      var before, after := Effects(s), Effects(r.sys);
      && AtomicStep(before, after, call)
      && (r.Over? && r.outcome.Returned? ==>
            call.Op() in after && after[call.Op()].result == r.outcome.result && after[call.Op()].meaning == call.meaning)
      && (forall o :: o in after ==> EntryStands(r.sys.core, after[o]))
      && (forall e, i :: RowIsEntered(r.sys.core, after, e, i))
  {
    hide Perform, Inv, OnlyThisKey, EntryStands, RowIsEntered, ConflictIsReal;
    var r := Perform(s, call);
    var before, after := Effects(s), Effects(r.sys);
    CallIsSafe(s, call);
    NewEntryIsTheCalls(s, call);
    EffectsGrow(s, r.sys, call);
    if call.Op() in after && call.Op() !in before {
      assert after == before[call.Op() := after[call.Op()]];
    } else {
      assert after == before;
    }
    forall o | o in after ensures EntryStands(r.sys.core, after[o]) { EntriesStand(r.sys, o); }
    forall e, i ensures RowIsEntered(r.sys.core, after, e, i) { RowsAreEntered(r.sys, e, i); }
  }

  ghost predicate RowIsEntered(c: Core, effects: map<OpKey, Entry>, e: Id, i: int) {
    e in c.events && 0 <= i < |c.events[e]| ==> exists o :: o in effects && effects[o].result == c.events[e][i].id
  }

  lemma NewEntryIsTheCalls(s: Sys, call: Call)
    requires Inv(s)
    ensures var r := Perform(s, call);
      var before, after := Effects(s), Effects(r.sys);
      && (call.Op() in after && call.Op() !in before ==> after[call.Op()].meaning == call.meaning)
      && (r.Over? && r.outcome.Returned? ==>
            call.Op() in after && after[call.Op()].result == r.outcome.result && after[call.Op()].meaning == call.meaning)
  {
    hide Perform, OnlyThisKey, Visible, ConflictIsReal;
    var r := Perform(s, call);
    CallIsSafe(s, call);
    CallKeepsBindings(s, call);
    ChangedMeaningConflicts(s, call);
    assert ControlOk(s, call.Op()) && ControlOk(r.sys, call.Op()) && BindingKept(s.core, s, r.sys, call, call.Op());
  }

  lemma EffectsGrow(s: Sys, t: Sys, call: Call)
    requires Inv(s) && Inv(t) && OnlyThisKey(s.core, t.core, call) && t == Perform(s, call).sys
    ensures forall o :: o in Effects(s) ==> o in Effects(t) && Effects(t)[o] == Effects(s)[o]
    ensures forall o :: o in Effects(t) && o !in Effects(s) ==> o == call.Op()
  {
    hide Perform, CoreOk;
    CallKeepsBindings(s, call);
    BindingsKeepDisk(s, t, call);
    forall o ensures o in Effects(t) && o !in Effects(s) ==> o == call.Op() {
      assert ControlOk(s, o);
    }
  }

  lemma EntriesStand(s: Sys, o: OpKey)
    requires Inv(s) && o in Effects(s)
    ensures EntryStands(s.core, Effects(s)[o])
  {
    assert ControlOk(s, o) && CommandOk(s.core, EffectKey(o));
  }

  lemma RowsAreEntered(s: Sys, e: Id, i: int)
    requires Inv(s)
    ensures RowIsEntered(s.core, Effects(s), e, i)
  {
    assert RowOk(s.core, e, i);
    if e in s.core.events && 0 <= i < |s.core.events[e]| {
      var o :| MadeBy(s.core, s.core.events[e][i], o);
      assert ControlOk(s, o);
      assert o in Effects(s);
    }
  }

  // ---- an append that hides its own event ----

  /** The revision that a call has just appended is the newest of its event. */
  lemma AppendIsNewest(s: Sys, call: Call)
    requires Inv(s) && call.meaning.NewRevision? && EffectKey(call.Op()) !in s.core.records
    requires EffectKey(call.Op()) in Perform(s, call).sys.core.records
    ensures var c := Perform(s, call).sys.core;
      && call.meaning.event in c.events && c.events[call.meaning.event] != []
      && c.events[call.meaning.event][|c.events[call.meaning.event]| - 1].payload.RevisionPayload?
      && c.events[call.meaning.event][|c.events[call.meaning.event]| - 1].payload.factStatus == call.meaning.factStatus
  {
    hide Perform, Inv, OnlyThisKey, Effects, ConflictIsReal;
    var t, o := Perform(s, call).sys, call.Op();
    RefinesAtomicStep(s, call);
    CallIsSafe(s, call);
    EffectsAreOnDisk(t, o);
    EffectsAreOnDisk(s, o);
    assert Effects(t)[o].meaning == call.meaning;
    NewestOf(s, t, call, Effects(t)[o].effective.base);
  }

  lemma EffectsAreOnDisk(s: Sys, o: OpKey)
    requires Inv(s)
    ensures o in Effects(s) <==> EffectKey(o) in s.core.records
    ensures o in Effects(s) ==>
      Effects(s)[o].result == s.core.records[EffectKey(o)].result && Effects(s)[o].meaning == s.disk[o].meaning
  {
    assert ControlOk(s, o);
  }

  lemma NewestOf(s: Sys, t: Sys, call: Call, base: nat)
    requires Inv(s) && Inv(t) && OnlyThisKey(s.core, t.core, call) && call.meaning.NewRevision?
    requires EffectKey(call.Op()) !in s.core.records && EffectKey(call.Op()) in t.core.records
    requires call.Op() in t.disk && t.disk[call.Op()].meaning == call.meaning
    requires StandsAt(t.core, t.core.records[EffectKey(call.Op())].result, call.meaning.event, base)
    ensures var rows := t.core.events[call.meaning.event];
      && rows != [] && rows[|rows| - 1].payload.RevisionPayload? && rows[|rows| - 1].payload.factStatus == call.meaning.factStatus
  {
    var o := call.Op();
    LastIsTheCalls(s.core, t.core, call, base);
    assert ControlOk(t, o) && CommandOk(t.core, EffectKey(o));
    RowOfEffect(t.core, o, call.meaning.event, base);
  }

  /** The row that carries the result of an operation carries its payload too. */
  lemma RowOfEffect(c: Core, o: OpKey, event: Id, i: nat)
    requires CoreOk(c) && EffectKey(o) in c.records && StandsAt(c, c.records[EffectKey(o)].result, event, i)
    ensures c.events[event][i].payload == c.records[EffectKey(o)].payload && MadeBy(c, c.events[event][i], o)
  {
    assert RowOk(c, event, i);
    var p :| MadeBy(c, c.events[event][i], p);
    assert SoleMaker(c, o, p);
  }

  lemma OldRowOldEffect(c: Core, d: Core, call: Call, event: Id, i: nat)
    requires CoreOk(c) && CoreOk(d) && OnlyThisKey(c, d, call) && event in c.events && i < |c.events[event]|
    requires EffectKey(call.Op()) in d.records && StandsAt(d, d.records[EffectKey(call.Op())].result, event, i)
    ensures EffectKey(call.Op()) in c.records
  {
    assert RowOk(c, event, i);
    var p :| MadeBy(c, c.events[event][i], p);
    assert SoleMaker(d, call.Op(), p);
  }

  lemma LastIsTheCalls(c: Core, d: Core, call: Call, base: nat)
    requires CoreOk(c) && CoreOk(d) && OnlyThisKey(c, d, call) && call.meaning.NewRevision?
    requires EffectKey(call.Op()) !in c.records && EffectKey(call.Op()) in d.records
    requires StandsAt(d, d.records[EffectKey(call.Op())].result, call.meaning.event, base)
    ensures |d.events[call.meaning.event]| == base + 1
  {
    var event, last := call.meaning.event, |d.events[call.meaning.event]| - 1;
    if event in c.events && base < |c.events[event]| {
      OldRowOldEffect(c, d, call, event, base);
    } else {
      assert NewRowIsTheCalls(c, d, call, event, last) && RowOk(d, event, last) && RowOk(d, event, base);
      RowOfEffect(d, call.Op(), event, base);
    }
  }

  /** An append with the status of a conflict takes its event out of sight: whether its answer was lost or not, the same
      call is never answered again with the revision it made, however often it is tried. */
  lemma ConflictAppendHidesItself(s: Sys, call: Call, again: Call)
    requires Inv(s) && call.meaning.NewRevision? && call.meaning.factStatus == "conflict"
    requires EffectKey(call.Op()) !in s.core.records && EffectKey(call.Op()) in Perform(s, call).sys.core.records
    requires again.meaning == call.meaning
    ensures var r := Perform(Perform(s, call).sys, again);
      r.Over? && r.outcome == NotVisible && r.sys == Perform(s, call).sys
  {
    hide Perform, Inv, ConflictIsReal, OnlyThisKey;
    AppendIsNewest(s, call);
    CallIsSafe(s, call);
    ChangedMeaningConflicts(Perform(s, call).sys, again);
  }
}
