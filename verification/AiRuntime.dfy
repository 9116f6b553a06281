/** The scope-bound cache, batch and budget of AI processing, and the candidate pipeline over them (runtime.py,
    pipeline.py). Scope hashes, cache keys and batch ids are digests; each is represented by what it is a digest of. */
module AiRuntime {
  import opened Json

  datatype Scope = Scope(purpose: string, space: string)

  /** The authorization snapshot a caller brings. */
  datatype Context = Context(
    purpose: string, space: string, deleted: set<string>, revoked: set<string>,
    policy: string, revocation: string, budget: int)
  {
    function InScope(): Scope { Scope(purpose, space) }
  }

  /** A prompt envelope as far as it is hashed; the input hash covers the evidence manifest. */
  datatype Request = Request(task: string, content: string, evidence: set<string>)

  datatype Key = Key(request: Request, scope: Scope, policy: string, revocation: string)

  datatype Entry = Entry(scope: Scope, space: string, evidence: set<string>, policy: string, revocation: string, response: Json)

  datatype Ticket = Ticket(key: Key, scope: Scope, space: string, evidence: set<string>, policy: string, revocation: string)

  /** A ticket's batch id is the digest of its cache key and its evidence, which the key determines. */
  datatype Runtime = Runtime(
    cache: map<Key, Entry>, batch: map<Key, Ticket>, spent: map<(Scope, string), nat>,
    deleted: set<(string, string)>, revoked: set<(Scope, string)>)

  const Fresh := Runtime(map[], map[], map[], {}, {})

  datatype Code = DeletedInput | RevokedInput | BudgetExhausted | ProviderError | SchemaMismatch | OtherCode(name: string)

  function KeyFor(request: Request, context: Context): Key {
    Key(request, context.InScope(), context.policy, context.revocation)
  }

  /** _forbidden_reason. */
  function Forbidden(r: Runtime, context: Context, ids: set<string>): Option<Code> {
    if !(ids !! context.deleted) || (exists id :: id in ids && (context.space, id) in r.deleted) then Some(DeletedInput)
    else if !(ids !! context.revoked) || (exists id :: id in ids && (context.InScope(), id) in r.revoked) then Some(RevokedInput)
    else None
  }

  predicate Hit(space: string, scope: Scope, evidence: set<string>, context: Context, deleted: set<string>, revoked: set<string>) {
    (space == context.space && !(evidence !! deleted)) || (scope == context.InScope() && !(evidence !! revoked))
  }

  function KeptEntries(cache: map<Key, Entry>, context: Context, deleted: set<string>, revoked: set<string>): (kept: map<Key, Entry>)
    ensures forall k :: k in kept <==> k in cache && !Hit(cache[k].space, cache[k].scope, cache[k].evidence, context, deleted, revoked)
    ensures forall k :: k in kept ==> kept[k] == cache[k]
  {
    map k | k in cache && !Hit(cache[k].space, cache[k].scope, cache[k].evidence, context, deleted, revoked) :: cache[k]
  }

  function KeptTickets(batch: map<Key, Ticket>, context: Context, deleted: set<string>, revoked: set<string>): (kept: map<Key, Ticket>)
    ensures forall k :: k in kept <==> k in batch && !Hit(batch[k].space, batch[k].scope, batch[k].evidence, context, deleted, revoked)
    ensures forall k :: k in kept ==> kept[k] == batch[k]
  {
    map k | k in batch && !Hit(batch[k].space, batch[k].scope, batch[k].evidence, context, deleted, revoked) :: batch[k]
  }

  /** invalidate_evidence. */
  function Invalidate(r: Runtime, context: Context, deleted: set<string>, revoked: set<string>): Runtime {
    r.(deleted := r.deleted + (set id | id in deleted :: (context.space, id)),
       revoked := r.revoked + (set id | id in revoked :: (context.InScope(), id)),
       cache := KeptEntries(r.cache, context, deleted, revoked),
       batch := KeptTickets(r.batch, context, deleted, revoked))
  }

  /** apply_context_revocations. */
  function ApplyContext(r: Runtime, context: Context): Runtime {
    if context.deleted != {} || context.revoked != {} then Invalidate(r, context, context.deleted, context.revoked) else r
  }

  function SpentOn(r: Runtime, scope: Scope, policy: string): nat {
    if (scope, policy) in r.spent then r.spent[(scope, policy)] else 0
  }

  predicate Affordable(r: Runtime, context: Context) {
    SpentOn(r, context.InScope(), context.policy) < context.budget
  }

  /** reserve_provider_budget. */
  function Reserve(r: Runtime, context: Context): Runtime {
    if !Affordable(r, context) then r
    else
      r.(spent := r.spent[(context.InScope(), context.policy) := SpentOn(r, context.InScope(), context.policy) + 1])
  }

  datatype Found = Refused(code: Code) | Miss | Invalidated | Response(json: Json)

  predicate EntryValid(r: Runtime, e: Entry, context: Context) {
    && e.scope == context.InScope() && e.space == context.space && e.policy == context.policy && e.revocation == context.revocation
    && Forbidden(r, context, e.evidence) == None
  }

  function Lookup(r: Runtime, request: Request, context: Context): Found {
    var reason := Forbidden(r, context, request.evidence);
    if reason.Some? then Refused(reason.value)
    else
      var key := KeyFor(request, context);
      if key !in r.cache then Miss
      else if EntryValid(r, r.cache[key], context) then Response(r.cache[key].response)
      else Invalidated
  }

  /** cache_get: an invalid entry is dropped. */
  function CacheGet(r: Runtime, request: Request, context: Context): Runtime {
    if Lookup(r, request, context) == Invalidated then r.(cache := r.cache - {KeyFor(request, context)}) else r
  }

  function CachePut(r: Runtime, request: Request, context: Context, response: Json): Runtime {
    if Forbidden(r, context, request.evidence).Some? then r
    else
      r.(cache := r.cache[KeyFor(request, context) :=
           Entry(context.InScope(), context.space, request.evidence, context.policy, context.revocation, response)])
  }

  function Enqueue(r: Runtime, request: Request, context: Context): Runtime {
    if Forbidden(r, context, request.evidence).Some? then r
    else
      var key := KeyFor(request, context);
      r.(batch := r.batch[key := Ticket(key, context.InScope(), context.space, request.evidence, context.policy, context.revocation)])
  }

  predicate TicketValid(r: Runtime, t: Ticket, context: Context) {
    && t.scope == context.InScope() && t.space == context.space && t.policy == context.policy && t.revocation == context.revocation
    && Forbidden(r, context, t.evidence) == None
  }

  function QueuedIn(batch: map<Key, Ticket>, scope: Scope): set<Key> {
    set k | k in batch && k.scope == scope
  }

  /** drain_batch: the whole scope leaves the queue, and the valid tickets are handed out. */
  function Drain(r: Runtime, context: Context): Runtime {
    var s := ApplyContext(r, context);
    s.(batch := s.batch - QueuedIn(s.batch, context.InScope()))
  }

  function Drained(r: Runtime, context: Context): set<Ticket> {
    var s := ApplyContext(r, context);
    set k | k in QueuedIn(s.batch, context.InScope()) && TicketValid(s, s.batch[k], context) :: s.batch[k]
  }

  // ---- the pipeline ----

  /** What a provider does when it is asked. */
  datatype Answer = Answered(json: Json) | Raised(code: Code)

  /** What create_candidate meets outside: the gates, the draft rules, the provider, and the checks of a candidate with the
      code they raise. */
  datatype World = World(
    localGate: Option<Code>, spacesAgree: bool, draft: Option<Code>, providerGiven: bool, gate: Option<Code>,
    generated: Answer, rejects: Json -> Option<Code>)

  datatype Result = Rejected(code: Code) | Drafted(fallback: Option<Code>) | Candidate(response: Json)

  /** What happened: the new state, the answer, and whether the provider was called. */
  datatype Done = Done(runtime: Runtime, result: Result, called: bool)

  predicate FallsBack(code: Code) {
    code in {BudgetExhausted, ProviderError, SchemaMismatch} ||
    code in {OtherCode("SENSITIVE_MODEL_BLOCKED"), OtherCode("PROVIDER_NOT_ALLOWED"), OtherCode("MISSING_EVIDENCE"), OtherCode("DATA_INSUFFICIENT")}
  }

  function Fail(r: Runtime, code: Code, called: bool): Done {
    Done(r, if FallsBack(code) then Drafted(Some(code)) else Rejected(code), called)
  }

  /** The provider half of create_candidate: gate, cache, budget, provider, checks, cache. */
  function ProviderPart(r: Runtime, request: Request, context: Context, w: World): Done {
    if w.gate.Some? then Fail(r, w.gate.value, false)
    else
      var found := Lookup(r, request, context);
      var r1 := CacheGet(r, request, context);
      match found
      case Refused(code) => Fail(r1, code, false)
      case Response(json) =>
        (match w.rejects(json)
         case None => Done(r1, Candidate(json), false)
         case Some(code) => Fail(r1, code, false))
      case _ => Ask(r1, request, context, w)
  }

  /** Nothing is cached: pay, ask, check, store. */
  function Ask(r: Runtime, request: Request, context: Context, w: World): Done {
    if !Affordable(r, context) then Fail(r, BudgetExhausted, false)
    else
      var paid := Reserve(r, context);
      match w.generated
      case Raised(code) => Fail(paid, code, true)
      case Answered(json) =>
        if w.rejects(json).Some? then Fail(paid, w.rejects(json).value, true)
        else Done(CachePut(paid, request, context, json), Candidate(json), true)
  }

  /** create_candidate. */
  function CreateCandidate(r: Runtime, request: Request, context: Context, w: World): Done {
    var r0 := ApplyContext(r, context);
    var reason := Forbidden(r0, context, request.evidence);
    if reason.Some? then Done(r0, Rejected(reason.value), false)
    else if w.localGate.Some? then Done(r0, Rejected(w.localGate.value), false)
    else if !w.spacesAgree then Done(r0, Rejected(OtherCode("SPACE_DENIED")), false)
    else if w.draft.Some? then Done(r0, Rejected(w.draft.value), false)
    else if !w.providerGiven then Done(r0, Drafted(None), false)
    else ProviderPart(r0, request, context, w)
  }

  // ---- runs ----

  datatype Action =
    | Invalidation(context: Context, deleted: set<string>, revoked: set<string>)
    | Get(request: Request, context: Context)
    | Put(request: Request, context: Context, response: Json)
    | Queue(request: Request, context: Context)
    | DrainOne(context: Context)
    | Spend(context: Context)
    | Create(request: Request, context: Context, world: World)

  function Act(r: Runtime, action: Action): Runtime {
    match action
    case Invalidation(context, deleted, revoked) => Invalidate(r, context, deleted, revoked)
    case Get(request, context) => CacheGet(r, request, context)
    case Put(request, context, response) => CachePut(r, request, context, response)
    case Queue(request, context) => Enqueue(r, request, context)
    case DrainOne(context) => Drain(r, context)
    case Spend(context) => Reserve(r, context)
    case Create(request, context, world) => CreateCandidate(r, request, context, world).runtime
  }

  function Run(actions: seq<Action>): Runtime {
    if actions == [] then Fresh else Act(Run(actions[..|actions| - 1]), actions[|actions| - 1])
  }

  // ---- no resurrection ----

  /** None of the evidence is deleted in its space or revoked in its scope. */
  ghost predicate Clean(r: Runtime, space: string, scope: Scope, evidence: set<string>) {
    forall id :: id in evidence ==> (space, id) !in r.deleted && (scope, id) !in r.revoked
  }

  ghost predicate EntryOk(r: Runtime, k: Key) {
    k in r.cache ==>
      var e := r.cache[k];
      && e.scope == k.scope && e.space == k.scope.space && e.policy == k.policy && e.revocation == k.revocation
      && e.evidence == k.request.evidence && Clean(r, e.space, e.scope, e.evidence)
  }

  ghost predicate TicketOk(r: Runtime, k: Key) {
    k in r.batch ==>
      var t := r.batch[k];
      && t.key == k && t.scope == k.scope && t.space == k.scope.space && t.policy == k.policy && t.revocation == k.revocation
      && t.evidence == k.request.evidence && Clean(r, t.space, t.scope, t.evidence)
  }

  ghost predicate Sound(r: Runtime) {
    (forall k :: EntryOk(r, k)) && (forall k :: TicketOk(r, k))
  }

  lemma InvalidateKeepsSound(r: Runtime, context: Context, deleted: set<string>, revoked: set<string>)
    requires Sound(r)
    ensures Sound(Invalidate(r, context, deleted, revoked))
  {
    hide KeptEntries, KeptTickets;
    var s := Invalidate(r, context, deleted, revoked);
    forall k ensures EntryOk(s, k) { assert EntryOk(r, k); }
    forall k ensures TicketOk(s, k) { assert TicketOk(r, k); }
  }

  lemma PutKeepsSound(r: Runtime, request: Request, context: Context, response: Json)
    requires Sound(r)
    ensures Sound(CachePut(r, request, context, response))
  {
    var s := CachePut(r, request, context, response);
    forall k ensures EntryOk(s, k) { assert EntryOk(r, k); }
    forall k ensures TicketOk(s, k) { assert TicketOk(r, k); }
  }

  lemma QueueKeepsSound(r: Runtime, request: Request, context: Context)
    requires Sound(r)
    ensures Sound(Enqueue(r, request, context))
  {
    var s := Enqueue(r, request, context);
    forall k ensures EntryOk(s, k) { assert EntryOk(r, k); }
    forall k ensures TicketOk(s, k) { assert TicketOk(r, k); }
  }

  lemma DropKeepsSound(r: Runtime, s: Runtime)
    requires Sound(r) && s.deleted == r.deleted && s.revoked == r.revoked
    requires forall k :: k in s.cache ==> k in r.cache && s.cache[k] == r.cache[k]
    requires forall k :: k in s.batch ==> k in r.batch && s.batch[k] == r.batch[k]
    ensures Sound(s)
  {
    forall k ensures EntryOk(s, k) { assert EntryOk(r, k); }
    forall k ensures TicketOk(s, k) { assert TicketOk(r, k); }
  }

  lemma ProviderKeepsSound(r: Runtime, request: Request, context: Context, w: World)
    requires Sound(r)
    ensures Sound(ProviderPart(r, request, context, w).runtime)
  {
    var r1 := CacheGet(r, request, context);
    DropKeepsSound(r, r1);
    hide CacheGet, Forbidden, Sound, Lookup, FallsBack, Affordable;
    DropKeepsSound(r1, Reserve(r1, context));
    if w.generated.Answered? {
      PutKeepsSound(Reserve(r1, context), request, context, w.generated.json);
    }
    hide CachePut, Reserve;
  }

  lemma CreateKeepsSound(r: Runtime, request: Request, context: Context, w: World)
    requires Sound(r)
    ensures Sound(CreateCandidate(r, request, context, w).runtime)
  {
    InvalidateKeepsSound(r, context, context.deleted, context.revoked);
    hide Invalidate, Forbidden, Sound, ProviderPart;
    ProviderKeepsSound(ApplyContext(r, context), request, context, w);
  }

  lemma StepKeepsSound(r: Runtime, action: Action)
    requires Sound(r)
    ensures Sound(Act(r, action))
  {
    hide Sound, Invalidate, Forbidden;
    match action
    case Invalidation(context, deleted, revoked) => InvalidateKeepsSound(r, context, deleted, revoked);
    case Get(request, context) => DropKeepsSound(r, Act(r, action));
    case Put(request, context, response) => PutKeepsSound(r, request, context, response);
    case Queue(request, context) => QueueKeepsSound(r, request, context);
    case DrainOne(context) =>
      InvalidateKeepsSound(r, context, context.deleted, context.revoked);
      DropKeepsSound(ApplyContext(r, context), Act(r, action));
    case Spend(context) => DropKeepsSound(r, Act(r, action));
    case Create(request, context, world) => CreateKeepsSound(r, request, context, world);
  }

  lemma {:induction false} RunKeepsSound(actions: seq<Action>)
    ensures Sound(Run(actions))
  {
    if actions != [] {
      RunKeepsSound(actions[..|actions| - 1]);
      StepKeepsSound(Run(actions[..|actions| - 1]), actions[|actions| - 1]);
    }
  }

  /** In every reachable state, no cached response and no queued ticket rests on evidence that was deleted in its space
      or revoked in its scope. */
  lemma {:induction false} NothingIsResurrected(actions: seq<Action>, k: Key)
    ensures var r := Run(actions);
      && (k in r.cache ==> Clean(r, r.cache[k].space, r.cache[k].scope, r.cache[k].evidence))
      && (k in r.batch ==> Clean(r, r.batch[k].space, r.batch[k].scope, r.batch[k].evidence))
  {
    RunKeepsSound(actions);
    assert EntryOk(Run(actions), k) && TicketOk(Run(actions), k);
  }

  /** Deleted and revoked evidence is never forgotten. */
  lemma {:induction false} RefusalsLast(before: seq<Action>, after: seq<Action>)
    ensures Run(before).deleted <= Run(before + after).deleted && Run(before).revoked <= Run(before + after).revoked
    decreases after
  {
    if after == [] {
      assert before + after == before;
    } else {
      var all, n := before + after, |after| - 1;
      assert all[..|all| - 1] == before + after[..n] && all[|all| - 1] == after[n];
      RefusalsLast(before, after[..n]);
      StepKeepsRefusals(Run(before + after[..n]), after[n]);
      hide Act;
      assert Run(all) == Act(Run(all[..|all| - 1]), all[|all| - 1]);
    }
  }

  lemma StepKeepsRefusals(r: Runtime, action: Action)
    ensures r.deleted <= Act(r, action).deleted && r.revoked <= Act(r, action).revoked
  {
    hide KeptEntries, KeptTickets, Forbidden, ProviderPart;
    if action.Create? {
      var r0 := ApplyContext(r, action.context);
      if Forbidden(r0, action.context, action.request.evidence).None? {
        ProviderStores(r0, action.request, action.context, action.world);
      }
    }
  }

  /** Evidence once deleted in a space is refused there for good: by the cache, by the queue and by create_candidate. */
  lemma DeletedStaysRefused(before: seq<Action>, after: seq<Action>, request: Request, context: Context, w: World, id: string)
    requires (context.space, id) in Run(before).deleted && id in request.evidence
    ensures var r := Run(before + after);
      && Lookup(r, request, context) == Refused(DeletedInput)
      && Enqueue(r, request, context) == r
      && CreateCandidate(r, request, context, w).result == Rejected(DeletedInput)
      && !CreateCandidate(r, request, context, w).called
  {
    RefusalsLast(before, after);
    hide Run;
    var r := Run(before + after);
    assert (context.space, id) in r.deleted && (context.space, id) in ApplyContext(r, context).deleted;
  }

  /** Evidence once revoked in a scope is refused in that scope for good, likewise. */
  lemma RevokedStaysRefused(before: seq<Action>, after: seq<Action>, request: Request, context: Context, w: World, id: string)
    requires (context.InScope(), id) in Run(before).revoked && id in request.evidence
    ensures var r := Run(before + after);
      && Lookup(r, request, context) in {Refused(DeletedInput), Refused(RevokedInput)}
      && Enqueue(r, request, context) == r
      && CreateCandidate(r, request, context, w).result in {Rejected(DeletedInput), Rejected(RevokedInput)}
      && !CreateCandidate(r, request, context, w).called
  {
    RefusalsLast(before, after);
    hide Run;
    var r := Run(before + after);
    assert (context.InScope(), id) in r.revoked && (context.InScope(), id) in ApplyContext(r, context).revoked;
  }

  /** What drain hands out: exactly the queued tickets of the scope with the caller's generations, all of them clean; and
      nothing of the scope stays queued. */
  lemma {:induction false} DrainIsExact(actions: seq<Action>, context: Context, t: Ticket)
    ensures var r := ApplyContext(Run(actions), context);
      && (t in Drained(Run(actions), context) <==> Due(r, context, t))
      && (t in Drained(Run(actions), context) ==> Clean(r, t.space, t.scope, t.evidence))
    ensures QueuedIn(Drain(Run(actions), context).batch, context.InScope()) == {}
  {
    RunKeepsSound(actions);
    InvalidateKeepsSound(Run(actions), context, context.deleted, context.revoked);
    hide Run, Invalidate, Forbidden;
    var r := ApplyContext(Run(actions), context);
    if t in Drained(Run(actions), context) {
      var k :| k in QueuedIn(r.batch, context.InScope()) && TicketValid(r, r.batch[k], context) && r.batch[k] == t;
      assert TicketOk(r, k);
    }
    if Due(r, context, t) {
      assert TicketOk(r, t.key);
      AppliedIsAllowed(Run(actions), context, t);
      assert t.key in QueuedIn(r.batch, context.InScope());
    }
  }

  /** Queued in the caller's scope, under the caller's generations. */
  predicate Due(r: Runtime, context: Context, t: Ticket) {
    t.key in r.batch && r.batch[t.key] == t && t.scope == context.InScope() && t.policy == context.policy && t.revocation == context.revocation
  }

  /** After the context's own revocations are applied, a clean ticket is allowed. */
  lemma AppliedIsAllowed(r: Runtime, context: Context, t: Ticket)
    requires Clean(ApplyContext(r, context), t.space, t.scope, t.evidence) && t.scope == context.InScope() && t.space == context.space
    ensures Forbidden(ApplyContext(r, context), context, t.evidence) == None
  {
    var s := ApplyContext(r, context);
    forall id | id in context.deleted ensures (context.space, id) in s.deleted {}
    forall id | id in context.revoked ensures (context.InScope(), id) in s.revoked {}
  }

  // ---- the cache ----

  /** A cached entry is never found invalid: whoever may ask for the key may have the answer. */
  lemma {:induction false} PresentIsAHit(actions: seq<Action>, request: Request, context: Context)
    ensures var r := Run(actions);
      && Lookup(r, request, context) != Invalidated
      && (KeyFor(request, context) in r.cache && Forbidden(r, context, request.evidence).None? ==>
            Lookup(r, request, context) == Response(r.cache[KeyFor(request, context)].response))
  {
    RunKeepsSound(actions);
    assert EntryOk(Run(actions), KeyFor(request, context));
  }

  /** What an action stores in the cache. */
  function Stores(r: Runtime, action: Action): Option<(Key, Json)> {
    match action
    case Put(request, context, response) =>
      if Forbidden(r, context, request.evidence).Some? then None else Some((KeyFor(request, context), response))
    case Create(request, context, world) =>
      var done := CreateCandidate(r, request, context, world);
      if done.called && done.result.Candidate? then Some((KeyFor(request, context), done.result.response)) else None
    case _ => None
  }

  /** The last response a run stored under a key. */
  function LastStored(actions: seq<Action>, key: Key): Option<Json> {
    if actions == [] then None
    else
      var n := |actions| - 1;
      match Stores(Run(actions[..n]), actions[n])
      case Some(pair) => if pair.0 == key then Some(pair.1) else LastStored(actions[..n], key)
      case None => LastStored(actions[..n], key)
  }

  lemma StepStores(r: Runtime, action: Action, key: Key)
    requires key in Act(r, action).cache
    ensures match Stores(r, action)
      case Some(pair) => if pair.0 == key then Act(r, action).cache[key].response == pair.1 else key in r.cache && Act(r, action).cache[key] == r.cache[key]
      case None => key in r.cache && Act(r, action).cache[key] == r.cache[key]
  {
    hide KeptEntries, KeptTickets;
    match action
    case Create(request, context, world) =>
      CreateStores(r, request, context, world);
      AppliedEntries(r, context);
      hide CreateCandidate, ApplyContext;
    case _ =>
  }

  lemma AppliedEntries(r: Runtime, context: Context)
    ensures forall k :: k in ApplyContext(r, context).cache ==> k in r.cache && ApplyContext(r, context).cache[k] == r.cache[k]
  {
    hide KeptEntries, KeptTickets;
  }

  /** The cache after create_candidate: the accepted answer of the provider is added, and nothing else. */
  lemma CreateStores(r: Runtime, request: Request, context: Context, w: World)
    ensures Stored(ApplyContext(r, context), CreateCandidate(r, request, context, w), KeyFor(request, context))
  {
    hide ApplyContext, Forbidden, EntryValid, ProviderPart;
    if Forbidden(ApplyContext(r, context), context, request.evidence).None? {
      ProviderStores(ApplyContext(r, context), request, context, w);
    }
  }

  /** The cache after part of the pipeline: an accepted answer of the provider is added, and nothing else. */
  ghost predicate Stored(r: Runtime, done: Done, key: Key) {
    && done.runtime.deleted == r.deleted && done.runtime.revoked == r.revoked
    && (forall k :: k in done.runtime.cache && (k != key || !(done.called && done.result.Candidate?)) ==>
          k in r.cache && done.runtime.cache[k] == r.cache[k])
    && (done.called && done.result.Candidate? ==> key in done.runtime.cache && done.runtime.cache[key].response == done.result.response)
  }

  lemma AskStores(r: Runtime, request: Request, context: Context, w: World)
    requires Forbidden(r, context, request.evidence).None?
    ensures Stored(r, Ask(r, request, context, w), KeyFor(request, context))
  {
    AllowedStays(r, r, Reserve(r, context), request, context);
    hide Forbidden, FallsBack;
  }

  lemma ProviderStores(r: Runtime, request: Request, context: Context, w: World)
    requires Forbidden(r, context, request.evidence).None?
    ensures Stored(r, ProviderPart(r, request, context, w), KeyFor(request, context))
  {
    var r1 := CacheGet(r, request, context);
    assert r1.deleted == r.deleted && r1.revoked == r.revoked;
    assert forall k :: k in r1.cache ==> k in r.cache && r1.cache[k] == r.cache[k];
    AllowedStays(r, r1, r1, request, context);
    AskStores(r1, request, context, w);
    hide Forbidden, EntryValid, FallsBack, CacheGet, Ask;
  }

  lemma AllowedStays(r0: Runtime, r1: Runtime, r2: Runtime, request: Request, context: Context)
    requires r1.deleted == r0.deleted && r1.revoked == r0.revoked && r2.deleted == r0.deleted && r2.revoked == r0.revoked
    ensures Forbidden(r2, context, request.evidence) == Forbidden(r0, context, request.evidence)
  {
  }

  /** A hit gives back the last response stored under the key, whatever was invalidated and stored in between. */
  lemma {:induction false} CachedIsLastStored(actions: seq<Action>, key: Key)
    requires key in Run(actions).cache
    ensures LastStored(actions, key) == Some(Run(actions).cache[key].response)
  {
    if actions != [] {
      var n := |actions| - 1;
      var r := Run(actions[..n]);
      StepStores(r, actions[n], key);
      if key in r.cache && Run(actions).cache[key] == r.cache[key] {
        CachedIsLastStored(actions[..n], key);
      }
    }
  }

  /** A hit of cache_get, in those terms. */
  lemma {:induction false} HitIsLastStored(actions: seq<Action>, request: Request, context: Context, json: Json)
    requires Lookup(Run(actions), request, context) == Response(json)
    ensures LastStored(actions, KeyFor(request, context)) == Some(json)
  {
    CachedIsLastStored(actions, KeyFor(request, context));
  }

  lemma ProviderPays(r: Runtime, request: Request, context: Context, w: World)
    requires EntryOk(r, KeyFor(request, context)) && Forbidden(r, context, request.evidence).None?
    ensures var done := ProviderPart(r, request, context, w);
      && (done.result.Candidate? ==> w.rejects(done.result.response).None?)
      && (done.called ==> KeyFor(request, context) !in r.cache && Affordable(r, context))
      && (done.runtime.spent == if done.called then Reserve(r, context).spent else r.spent)
  {
    hide Forbidden, FallsBack;
  }

  /** The pipeline answers and caches only what it accepted, and calls the provider only when nothing is cached and the
      budget allows, paying once for it. */
  lemma CandidateIsAccepted(r: Runtime, request: Request, context: Context, w: World)
    requires Sound(r)
    ensures var done := CreateCandidate(r, request, context, w);
      var r0 := ApplyContext(r, context);
      && (done.result.Candidate? ==> w.rejects(done.result.response).None?)
      && (done.called ==> KeyFor(request, context) !in r0.cache && Affordable(r0, context))
      && (done.runtime.spent == if done.called then Reserve(r0, context).spent else r.spent)
      && (KeyFor(request, context) in done.runtime.cache && KeyFor(request, context) !in r0.cache ==>
            done.called && done.result == Candidate(done.runtime.cache[KeyFor(request, context)].response))
  {
    InvalidateKeepsSound(r, context, context.deleted, context.revoked);
    CreateStores(r, request, context, w);
    var r0 := ApplyContext(r, context);
    assert EntryOk(r0, KeyFor(request, context));
    assert r0.spent == r.spent;
    hide ApplyContext, Forbidden, Sound, ProviderPart, EntryOk;
    if Forbidden(r0, context, request.evidence).None? {
      ProviderPays(r0, request, context, w);
    }
  }

  /** What is stored meets these checks: directly, or because the pipeline used them. */
  predicate ChecksWith(action: Action, checks: Json -> Option<Code>) {
    match action
    case Put(_, _, response) => checks(response).None?
    case Create(_, _, world) =>
      world.generated.Answered? && world.rejects(world.generated.json).None? ==> checks(world.generated.json).None?
    case _ => true
  }

  lemma StoredIsAnswered(r: Runtime, request: Request, context: Context, w: World)
    ensures var done := CreateCandidate(r, request, context, w);
      done.called && done.result.Candidate? ==> w.generated == Answered(done.result.response) && w.rejects(done.result.response).None?
  {
    hide ApplyContext, Forbidden, EntryValid, CachePut, Reserve, Affordable;
  }

  /** Whatever happens, the cache holds only responses that passed the checks of the call that stored them. */
  lemma {:induction false} CacheHoldsAccepted(actions: seq<Action>, checks: Json -> Option<Code>, key: Key)
    requires forall i :: 0 <= i < |actions| ==> ChecksWith(actions[i], checks)
    requires key in Run(actions).cache
    ensures checks(Run(actions).cache[key].response).None?
  {
    if actions != [] {
      var n := |actions| - 1;
      var r := Run(actions[..n]);
      StepStores(r, actions[n], key);
      if actions[n].Create? {
        StoredIsAnswered(r, actions[n].request, actions[n].context, actions[n].world);
      }
      hide Act, CreateCandidate;
      if key in r.cache && Run(actions).cache[key] == r.cache[key] {
        CacheHoldsAccepted(actions[..n], checks, key);
      }
    }
  }

  // ---- the budget ----

  /** The provider calls a run made for a scope and policy generation. */
  function Calls(actions: seq<Action>, scope: Scope, policy: string): nat {
    if actions == [] then 0
    else
      var n := |actions| - 1;
      var last := actions[n];
      Calls(actions[..n], scope, policy) +
      (if last.Create? && last.context.InScope() == scope && last.context.policy == policy &&
          CreateCandidate(Run(actions[..n]), last.request, last.context, last.world).called then 1 else 0)
  }

  /** Every caller in a scope and generation states at most this budget. */
  predicate WithinBudget(actions: seq<Action>, scope: Scope, policy: string, budget: nat) {
    forall i :: 0 <= i < |actions| ==> StatesAtMost(actions[i], scope, policy, budget)
  }

  predicate StatesAtMost(action: Action, scope: Scope, policy: string, budget: nat) {
    (action.Spend? || action.Create?) && action.context.InScope() == scope && action.context.policy == policy ==>
      action.context.budget <= budget
  }

  lemma StepSpends(r: Runtime, action: Action, scope: Scope, policy: string, budget: nat, calls: nat)
    requires Sound(r) && calls <= SpentOn(r, scope, policy) <= budget
    requires StatesAtMost(action, scope, policy, budget)
    ensures var more := if action.Create? && action.context.InScope() == scope && action.context.policy == policy &&
                           CreateCandidate(r, action.request, action.context, action.world).called then 1 else 0;
      calls + more <= SpentOn(Act(r, action), scope, policy) <= budget
  {
    hide KeptEntries, KeptTickets;
    match action
    case Create(request, context, world) =>
      CandidateIsAccepted(r, request, context, world);
      assert ApplyContext(r, context).spent == r.spent;
      hide CreateCandidate, Sound;
    case _ =>
  }

  /** With a constant budget, the provider is called at most that often for a scope and policy generation, and no more
      than was paid for. */
  lemma {:induction false} CallsStayWithinBudget(actions: seq<Action>, scope: Scope, policy: string, budget: nat)
    requires WithinBudget(actions, scope, policy, budget)
    ensures Calls(actions, scope, policy) <= SpentOn(Run(actions), scope, policy) <= budget
  {
    if actions != [] {
      var n := |actions| - 1;
      assert WithinBudget(actions[..n], scope, policy, budget);
      CallsStayWithinBudget(actions[..n], scope, policy, budget);
      RunKeepsSound(actions[..n]);
      StepSpends(Run(actions[..n]), actions[n], scope, policy, budget, Calls(actions[..n], scope, policy));
    }
  }
}
