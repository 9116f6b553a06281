/** The event node store as the program has it: records changed in place around saves and Core commits. */
module TwoStoreNode {
  import opened Json
  import opened TwoStore

  class CoreEventNodeStore {
    var operations: map<OpKey, Operation>
    var controlFile: map<OpKey, Operation>
    var records: map<CommandKey, Record>
    var events: map<Id, seq<Row>>
    var nextId: Id
    /** Durable writes the current call has left before it is cut short. */
    var left: nat

    function System(): Sys
      reads this
    {
      Sys(operations, controlFile, Core(records, events, nextId))
    }

    function Now(over: Option<Outcome>): Progress
      reads this
    {
      match over
      case None => Going(System(), left)
      case Some(outcome) => Over(System(), outcome)
    }

    constructor ()
      ensures System() == Empty
    {
      operations, controlFile, records, events, nextId, left := map[], map[], map[], map[], 1, 0;
    }

    /** control.save(), or the crash or error that comes in its place. */
    method SaveControl(call: Call) returns (over: Option<Outcome>)
      modifies this
      ensures Now(over) == Save(old(System()), old(left), call)
    {
      over := None;
      if left == 0 {
        over := CutShort(call);
      } else {
        controlFile := operations;
        left := left - 1;
      }
    }

    method CutShort(call: Call) returns (over: Option<Outcome>)
      modifies `operations
      ensures Now(over) == Stop(old(System()), call)
    {
      if call.crash {
        operations := controlFile;
      }
      over := Some(Interrupted);
    }

    method BeginOperation(call: Call) returns (over: Option<Outcome>)
      requires left == call.writes && Visible(System().core, call.meaning)
      modifies this
      ensures Now(over) == Begin(old(System()), call)
      ensures over == None ==> call.Op() in operations
    {
      if call.Op() in operations {
        var operation := operations[call.Op()];
        if operation.meaning != call.meaning {
          return Some(KeyConflict);
        } else if operation.state.Committed? {
          return Some(Returned(operation.state.result));
        } else if operation.state == Failed {
          return Some(PermanentlyFailed);
        }
        operations := operations[call.Op() := operation.(attempts := operation.attempts + 1)];
        over := SaveControl(call);
        return;
      }
      var operation := Operation(call.meaning, Prepared, 0, EffectiveOf(System().core, call.meaning, call.now));
      operations := operations[call.Op() := operation];
      over := SaveControl(call);
      if over == None {
        operations := operations[call.Op() := operation.(attempts := 1)];
        over := SaveControl(call);
      }
    }

    method RecordCoreFailure(call: Call, retryable: bool, outcome: Outcome) returns (over: Option<Outcome>)
      requires call.Op() in operations
      modifies this
      ensures Now(over) == RecordFailure(old(System()), old(left), call, retryable, outcome)
    {
      var state := if retryable then RetryPending else Failed;
      operations := operations[call.Op() := operations[call.Op()].(state := state)];
      over := SaveControl(call);
      if over == None {
        over := Some(outcome);
      }
    }

    /** _command: look the key up, replay or conflict, otherwise act and record in one transaction. */
    method RunCommand(call: Call, step: Step, payload: Payload) returns (over: Option<Outcome>)
      requires call.Op() in operations
      modifies this
      ensures Now(over) == Command(old(System()), old(left), call, step, payload)
    {
      over := None;
      var key := KeyOf(call, step);
      if step in call.faults && call.faults[step] == Busy {
        over := RecordCoreFailure(call, true, StoreError);
      } else if key in records {
        if records[key].payload != payload {
          over := RecordCoreFailure(call, false, CoreConflict);
        }
      } else if step in call.faults {
        over := RecordCoreFailure(call, false, StoreError);
      } else if !Applies(System().core, payload) {
        over := RecordCoreFailure(call, false, RevisionConflict);
      } else if left == 0 {
        over := CutShort(call);
      } else {
        records := records[key := Record(payload, nextId)];
        if payload.EventPayload? {
          events := events[nextId := [Row(nextId, payload)]];
        } else if payload.RevisionPayload? && payload.event in events {
          events := events[payload.event := events[payload.event] + [Row(nextId, payload)]];
        }
        nextId := nextId + 1;
        left := left - 1;
      }
    }

    method CompleteOperation(call: Call) returns (outcome: Outcome)
      requires call.Op() in operations
      modifies this
      ensures Over(System(), outcome) == Complete(Going(old(System()), old(left)), call)
    {
      var result := ResultOf(System().core, EffectKey(call.Op()));
      operations := operations[call.Op() := operations[call.Op()].(state := Committed(result))];
      var over := SaveControl(call);
      outcome := over.GetOr(Returned(result));
    }

    /** The commands that record the evidence run in order, each under its own key, and the first that fails ends the
        call. */
    method CaptureEvidence(call: Call) returns (over: Option<Outcome>)
      requires call.Op() in operations
      modifies this
      ensures Now(over) == Do(Do(Do(Going(old(System()), old(left)), call, Contract), call, Capture), call, Observe)
      ensures over == None ==> call.Op() in operations
    {
      hide Command;
      over := RunStep(call, Contract);
      if over == None {
        over := RunStep(call, Capture);
      }
      if over == None {
        over := RunStep(call, Observe);
      }
    }

    /** create_event. */
    method CreateEventRecord(call: Call) returns (outcome: Outcome)
      requires Inv(System()) && call.meaning.NewEvent?
      modifies this
      ensures Over(System(), outcome) == Perform(old(System()), call)
      ensures Inv(System())
    {
      CallIsSafe(System(), call);
      outcome := RunOperation(call);
    }

    /** append_revision: the event must be visible before the key is looked up. */
    method AppendRevisionRecord(call: Call) returns (outcome: Outcome)
      requires Inv(System()) && call.meaning.NewRevision?
      modifies this
      ensures Over(System(), outcome) == Perform(old(System()), call)
      ensures Inv(System())
    {
      CallIsSafe(System(), call);
      if !Visible(System().core, call.meaning) {
        ChangedMeaningConflicts(System(), call);
        outcome := NotVisible;
      } else {
        outcome := RunOperation(call);
      }
    }

    /** What both do once the event is known to be visible. */
    method RunOperation(call: Call) returns (outcome: Outcome)
      requires Visible(System().core, call.meaning) && Perform(System(), call).Over?
      modifies this
      ensures Over(System(), outcome) == Perform(old(System()), call)
    {
      hide Begin, Command, Visible;
      left := call.writes;
      var over := BeginOperation(call);
      if over == None {
        over := CaptureEvidence(call);
      }
      if over == None {
        over := RunStep(call, Effect);
      }
      if over == None {
        outcome := CompleteOperation(call);
      } else {
        outcome := over.value;
      }
    }

    /** The command of one step, with the pinned values of the operation. */
    method RunStep(call: Call, step: Step) returns (over: Option<Outcome>)
      requires call.Op() in operations
      modifies this
      ensures Now(over) == Do(Going(old(System()), old(left)), call, step)
      ensures over == None ==> call.Op() in operations
    {
      over := RunCommand(call, step, PayloadFor(System().core, call, operations[call.Op()].effective, step));
    }
  }
}
