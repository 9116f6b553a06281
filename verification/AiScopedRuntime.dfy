/** ScopedAIRuntime as the program has it, updated in place. */
module AiScopedRuntime {
  import opened Json
  import opened AiRuntime

  class ScopedAIRuntime {
    var cache: map<Key, Entry>
    var batch: map<Key, Ticket>
    var budgetSpent: map<(Scope, string), nat>
    var deleted: set<(string, string)>
    var revoked: set<(Scope, string)>

    function Contents(): Runtime
      reads this
    {
      Runtime(cache, batch, budgetSpent, deleted, revoked)
    }

    constructor ()
      ensures Contents() == Fresh
    {
      cache, batch, budgetSpent, deleted, revoked := map[], map[], map[], {}, {};
    }

    /** The entries of the cache that lost their evidence are popped one by one. */
    method PruneCache(context: Context, deletedIds: set<string>, revokedIds: set<string>) returns (removed: nat)
      modifies `cache
      ensures cache == KeptEntries(old(cache), context, deletedIds, revokedIds)
    {
      hide KeptEntries, Hit;
      removed := 0;
      var saved := cache;
      var todo := cache.Keys;
      while todo != {}
        invariant todo <= saved.Keys && cache.Keys <= saved.Keys
        invariant forall k :: k in cache ==> cache[k] == saved[k]
        invariant forall k :: k in saved ==>
          (k in cache <==> k in todo || !Hit(saved[k].space, saved[k].scope, saved[k].evidence, context, deletedIds, revokedIds))
        decreases todo
      {
        var k :| k in todo;
        var entry := cache[k];
        if Hit(entry.space, entry.scope, entry.evidence, context, deletedIds, revokedIds) {
          cache := cache - {k};
          removed := removed + 1;
        }
        todo := todo - {k};
      }
    }

    method PruneBatch(context: Context, deletedIds: set<string>, revokedIds: set<string>) returns (removed: nat)
      modifies `batch
      ensures batch == KeptTickets(old(batch), context, deletedIds, revokedIds)
    {
      hide KeptTickets, Hit;
      removed := 0;
      var saved := batch;
      var todo := batch.Keys;
      while todo != {}
        invariant todo <= saved.Keys && batch.Keys <= saved.Keys
        invariant forall k :: k in batch ==> batch[k] == saved[k]
        invariant forall k :: k in saved ==>
          (k in batch <==> k in todo || !Hit(saved[k].space, saved[k].scope, saved[k].evidence, context, deletedIds, revokedIds))
        decreases todo
      {
        var k :| k in todo;
        var ticket := batch[k];
        if Hit(ticket.space, ticket.scope, ticket.evidence, context, deletedIds, revokedIds) {
          batch := batch - {k};
          removed := removed + 1;
        }
        todo := todo - {k};
      }
    }

    /** invalidate_evidence. */
    method InvalidateEvidence(context: Context, deletedIds: set<string>, revokedIds: set<string>)
      modifies this
      ensures Contents() == Invalidate(old(Contents()), context, deletedIds, revokedIds)
    {
      hide KeptEntries, KeptTickets;
      deleted := deleted + set id | id in deletedIds :: (context.space, id);
      revoked := revoked + set id | id in revokedIds :: (context.InScope(), id);
      var cacheRemoved := PruneCache(context, deletedIds, revokedIds);
      var batchRemoved := PruneBatch(context, deletedIds, revokedIds);
    }

    method ApplyContextRevocations(context: Context)
      modifies this
      ensures Contents() == ApplyContext(old(Contents()), context)
    {
      if context.deleted != {} || context.revoked != {} {
        InvalidateEvidence(context, context.deleted, context.revoked);
      }
    }

    /** reserve_provider_budget. */
    method ReserveProviderBudget(context: Context) returns (reserved: bool)
      modifies `budgetSpent
      ensures reserved == Affordable(old(Contents()), context)
      ensures Contents() == Reserve(old(Contents()), context)
    {
      var key := (context.InScope(), context.policy);
      var spent := if key in budgetSpent then budgetSpent[key] else 0;
      if spent >= context.budget {
        return false;
      }
      budgetSpent := budgetSpent[key := spent + 1];
      reserved := true;
    }

    /** cache_get. */
    method Get(request: Request, context: Context) returns (found: Found)
      modifies `cache
      ensures found == Lookup(old(Contents()), request, context)
      ensures Contents() == CacheGet(old(Contents()), request, context)
    {
      var reason := Forbidden(Contents(), context, request.evidence);
      if reason.Some? {
        return AiRuntime.Refused(reason.value);
      }
      var key := KeyFor(request, context);
      if key !in cache {
        return Miss;
      }
      var entry := cache[key];
      if !EntryValid(Contents(), entry, context) {
        cache := cache - {key};
        return Invalidated;
      }
      found := Response(entry.response);
    }

    /** cache_put. */
    method Store(request: Request, context: Context, response: Json) returns (stored: bool)
      modifies `cache
      ensures stored == Forbidden(old(Contents()), context, request.evidence).None?
      ensures Contents() == CachePut(old(Contents()), request, context, response)
    {
      if Forbidden(Contents(), context, request.evidence).Some? {
        return false;
      }
      cache := cache[KeyFor(request, context) :=
        Entry(context.InScope(), context.space, request.evidence, context.policy, context.revocation, response)];
      stored := true;
    }

    /** enqueue_batch. */
    method EnqueueBatch(request: Request, context: Context) returns (ticket: Option<Ticket>)
      modifies `batch
      ensures Contents() == Enqueue(old(Contents()), request, context)
      ensures ticket.Some? ==> ticket.value.key in batch && batch[ticket.value.key] == ticket.value
    {
      if Forbidden(Contents(), context, request.evidence).Some? {
        return None;
      }
      var key := KeyFor(request, context);
      var queued := Ticket(key, context.InScope(), context.space, request.evidence, context.policy, context.revocation);
      batch := batch[key := queued];
      ticket := Some(queued);
    }

    /** drain_batch. */
    method DrainBatch(context: Context) returns (ready: set<Ticket>)
      modifies this
      ensures Contents() == Drain(old(Contents()), context)
      ensures ready == Drained(old(Contents()), context)
    {
      hide Invalidate, Forbidden;
      ApplyContextRevocations(context);
      ghost var applied := Contents();
      var queued := QueuedIn(batch, context.InScope());
      ready := {};
      var todo := queued;
      while todo != {}
        invariant todo <= queued && Contents() == applied
        invariant ready == set k | k in queued - todo && TicketValid(applied, applied.batch[k], context) :: applied.batch[k]
        decreases todo
      {
        var k :| k in todo;
        if TicketValid(Contents(), batch[k], context) {
          ready := ready + {batch[k]};
        }
        todo := todo - {k};
      }
      assert queued - todo == queued;
      batch := batch - queued;
    }
  }

  /** create_candidate over the runtime: revocations, gates, draft, cache, budget, provider, checks, cache again. */
  method CreateCandidateWith(runtime: ScopedAIRuntime, request: Request, context: Context, w: World) returns (result: Result, called: bool)
    modifies runtime
    ensures Done(runtime.Contents(), result, called) == CreateCandidate(old(runtime.Contents()), request, context, w)
  {
    hide Forbidden, ApplyContext, EntryValid;
    called := false;
    runtime.ApplyContextRevocations(context);
    var reason := Forbidden(runtime.Contents(), context, request.evidence);
    if reason.Some? {
      return Rejected(reason.value), false;
    }
    if w.localGate.Some? {
      return Rejected(w.localGate.value), false;
    }
    if !w.spacesAgree {
      return Rejected(OtherCode("SPACE_DENIED")), false;
    }
    if w.draft.Some? {
      return Rejected(w.draft.value), false;
    }
    if !w.providerGiven {
      return Drafted(None), false;
    }
    result, called := AskProvider(runtime, request, context, w);
  }

  method AskProvider(runtime: ScopedAIRuntime, request: Request, context: Context, w: World) returns (result: Result, called: bool)
    modifies runtime
    ensures Done(runtime.Contents(), result, called) == ProviderPart(old(runtime.Contents()), request, context, w)
  {
    hide Forbidden, EntryValid;
    if w.gate.Some? {
      return Fallback(w.gate.value), false;
    }
    var found := runtime.Get(request, context);
    match found
    case Refused(code) => return Fallback(code), false;
    case Response(json) =>
      var flaw := w.rejects(json);
      if flaw.None? {
        return Candidate(json), false;
      }
      return Fallback(flaw.value), false;
    case _ =>
      var reserved := runtime.ReserveProviderBudget(context);
      if !reserved {
        return Fallback(BudgetExhausted), false;
      }
      match w.generated
      case Raised(code) => return Fallback(code), true;
      case Answered(json) =>
        var flaw := w.rejects(json);
        if flaw.Some? {
          return Fallback(flaw.value), true;
        }
        var stored := runtime.Store(request, context, json);
        return Candidate(json), true;
  }

  function Fallback(code: Code): Result {
    if FallsBack(code) then Drafted(Some(code)) else Rejected(code)
  }
}
