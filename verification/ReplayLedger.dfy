/** The idempotency ledger of the agent protocol (protocol.py). A request's fingerprint, a digest, stands for its fields. */
module ReplayLedger {
  import opened Json

  datatype Verdict = New | Replay | Conflict | Invalid

  /** A request after validation; the fingerprint is over its caller, grant, purpose, scope, operation and payload digest,
      not over its id or slot. */
  datatype Control = Control(slot: string, fingerprint: string)

  function Judge(seen: map<string, string>, request: Option<Control>): Verdict {
    if request.None? then Invalid
    else if request.value.slot !in seen then New
    else if seen[request.value.slot] != request.value.fingerprint then Conflict
    else Replay
  }

  function After(seen: map<string, string>, request: Option<Control>): map<string, string> {
    if Judge(seen, request) == New then seen[request.value.slot := request.value.fingerprint] else seen
  }

  function SeenBy(history: seq<Option<Control>>): map<string, string> {
    if history == [] then map[]
    else After(SeenBy(history[..|history| - 1]), history[|history| - 1])
  }

  /** The position of the first request of a slot. */
  ghost predicate FirstOf(history: seq<Option<Control>>, slot: string, i: nat) {
    && i < |history| && history[i].Some? && history[i].value.slot == slot
    && forall j :: 0 <= j < i && history[j].Some? ==> history[j].value.slot != slot
  }

  lemma {:induction false} SlotIsUnused(history: seq<Option<Control>>, slot: string)
    requires slot !in SeenBy(history)
    ensures forall i :: 0 <= i < |history| && history[i].Some? ==> history[i].value.slot != slot
  {
    if history != [] {
      SlotIsUnused(history[..|history| - 1], slot);
    }
  }

  /** The ledger holds the slots that were used, each with the fingerprint of the first request that used it. */
  lemma {:induction false} LedgerHoldsTheFirst(history: seq<Option<Control>>, slot: string)
    ensures slot in SeenBy(history) <==> exists i :: 0 <= i < |history| && history[i].Some? && history[i].value.slot == slot
    ensures slot in SeenBy(history) ==>
              exists i: nat :: FirstOf(history, slot, i) && SeenBy(history)[slot] == history[i].value.fingerprint
  {
    if slot !in SeenBy(history) {
      SlotIsUnused(history, slot);
    } else if history != [] {
      var before := history[..|history| - 1];
      if slot in SeenBy(before) {
        LedgerHoldsTheFirst(before, slot);
        var i: nat :| FirstOf(before, slot, i) && SeenBy(before)[slot] == before[i].value.fingerprint;
        assert FirstOf(history, slot, i);
      } else {
        SlotIsUnused(before, slot);
        assert FirstOf(history, slot, |before|);
      }
    }
  }

  lemma FirstIsUnique(history: seq<Option<Control>>, slot: string, i: nat, j: nat)
    requires FirstOf(history, slot, i) && FirstOf(history, slot, j)
    ensures i == j
  {
  }

  /** A request is new exactly when its slot was never used; otherwise it is a replay exactly when its fingerprint is that
      of the first request of the slot. Refused requests and conflicts between them change nothing. */
  lemma VerdictComesFromTheFirst(history: seq<Option<Control>>, request: Control)
    ensures var verdict := Judge(SeenBy(history), Some(request));
            && (verdict == New <==> !exists i: nat :: FirstOf(history, request.slot, i))
            && (forall i: nat :: FirstOf(history, request.slot, i) ==>
                  verdict == if history[i].value.fingerprint == request.fingerprint then Replay else Conflict)
  {
    LedgerHoldsTheFirst(history, request.slot);
    if request.slot !in SeenBy(history) {
      SlotIsUnused(history, request.slot);
    } else {
      var first: nat :| FirstOf(history, request.slot, first) && SeenBy(history)[request.slot] == history[first].value.fingerprint;
      forall i: nat | FirstOf(history, request.slot, i) ensures i == first {
        FirstIsUnique(history, request.slot, i, first);
      }
    }
  }

  class Ledger {
    var seen: map<string, string>
    ghost var history: seq<Option<Control>>

    ghost predicate Valid()
      reads this
    {
      seen == SeenBy(history)
    }

    constructor ()
      ensures Valid() && history == []
    {
      seen := map[];
      history := [];
    }

    method Accept(request: Option<Control>) returns (verdict: Verdict)
      requires Valid()
      modifies this
      ensures Valid() && history == old(history) + [request]
      ensures verdict == Judge(SeenBy(old(history)), request)
    {
      ghost var grown := history + [request];
      assert grown[..|grown| - 1] == history;
      history := grown;
      match request
      case None => verdict := Invalid;
      case Some(control) =>
        if control.slot !in seen {
          seen := seen[control.slot := control.fingerprint];
          verdict := New;
        } else if seen[control.slot] != control.fingerprint {
          verdict := Conflict;
        } else {
          verdict := Replay;
        }
    }
  }
}
