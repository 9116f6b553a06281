# AmeMe reference components: models and proofs

This project models the deterministic cores of AmeMe and proves what they are for: sync peers that converge, a schema
check that protects old data, an event store whose projections can be rebuilt and whose deletions cascade, a two-store
operation that takes effect exactly once, an AI runtime that resurrects nothing, drafts and context packs that are
canonical and maximal, and channel frames that round-trip.

`dafny verify dfyconfig.toml` checks everything. Code that updates state in place is a class with the source's fields;
each method's `ensures` ties its new state to a function of the old one, and the theorems are about those functions and
their runs. Everything else is datatypes, functions and lemmas.

| part | files | what is modelled |
|---|---|---|
| Sync | `Sync*.dfy` | peers (`SyncPeer`, `SyncTransitions`), receive window, application trace, projection, convergence, deletion, the simulator with its deletion proofs |
| Schemas | `Schema*.dfy` | the keyword subset of JSON Schema 2020-12 that the validator implements, the comparison of two schemas, and both scripts as imperative code |
| Two stores | `TwoStore*.dfy` | the control file and the idempotent Core commands behind `create_event` and `append_revision`; a call may die before any durable write |
| Core store | `Core*.dfy` | the revision log and its projections, ledgers, rebuild, source deletion |
| Vault and queue | `Vault*.dfy` | encrypted files, two-phase deletion, recovery, deletion jobs, the leased queue |
| AI runtime | `Ai*.dfy`, `DraftRules.dfy`, `Deduplication.dfy` | cache, batch, budget and pipeline; drafting from observations and the checker; the deduplicators |
| Context | `ContextPack.dfy` | token counts over JSON text and UTF-8, the binary search, the packing loop |
| Channel | `Utf8.dfy`, `Base64.dfy`, `JsonLine.dfy`, `ChannelFrames.dfy`, `ReplayLedger.dfy` | frames over canonical JSON text and base64, proofs, nonces, the idempotency ledger |

## What the code does differently from its promises

Where a promise is not met, the code is kept and a lemma shows the case, by a run that reaches it where runs matter. The
condition under which the promise holds is exact (an if-and-only-if) except for convergence and the schema comparison,
where it is sufficient only.

- A deletion proof is credited by a duplicate receipt, also when the tombstone was quarantined
  (`DuplicateQuarantineCompletesProof`, `CompleteProofMeaning`).
- Sync order shows when envelopes of two devices, or a revision and a tombstone of one, share an idempotency key, and when
  a device is revoked (`SharedKeyDiverges`, `SharedKeyDivergesWithinDevice`, `RevocationDiverges`).
- While a field is in conflict, `fields` keeps the last agreed value (`ProjectionMeaning`).
- The schema comparison never looks at `uniqueItems`, at limits only the new schema has, or at new properties
  (`NewUniquenessSlipsThrough`, `NewLimitSlipsThrough`, `NewPropertySlipsThrough`).
- Ledgers of a second timezone go stale, although their revision counts all zones: a command that leaves one out is never
  made good but by a refresh of that ledger or a rebuild (`StaleExactly`, `StepFreshens`, `RebuildChangesNothingExactly`,
  `TwoZonesDiffer`). A conflict status overwrites a requested deletion, and revisions can be appended to deleted events
  (`StepBuries`); a revived event then blocks further deletions (`DeletableExactly`, `RevivalBlocksDeletion`).
- Creating an event and appending a revision share the evidence keys of a client key: used for both with other content, it
  closes the later operation for good (`SharedKeyCloses`, `ConflictsComeFromSharing`, `ReturnsExactly`). An append with
  the fact status of a conflict, which the node store accepts although the tool in front of it sends none, is never
  answered again (`ConflictAppendHidesItself`).
- Confidence after several deletions depends on their order (`OrderChangesConfidence`, `OrdersAgreeOnConfidenceIff`).
- The deletion of a source lists its active objects only. An object already staged for expiry keeps its file until its
  purge is finished, although the deletion is completed with proof (`CompletionCanLeaveAFile`,
  `DeletedSourcesKeepOnlyExpired`, `DeletionLeavesExactly`).
- A deletion job whose last object is finalised elsewhere is completed only at its next check (`CompletionLags`,
  `CompletionCanLag`, `CompletedExactly`); its queue entry is queued again whatever its attempts
  (`DeletionEntriesAreRequeued`, `LeasesAreUnbounded`).
- The "invalidated" outcome of the cache is unreachable, because the key covers the evidence (`PresentIsAHit`).
- Observations that disagree about time make drafting fail, because a list of times is no time range; so does an id that
  one field would cite twice (`BuildEventDraft`). A correction raises an observation's rank for the event type whatever its
  status, for the fields only when the user asserted it (`ChooseEventType`, `SelectField`).
- Sequence numbers above 9007199254740991 pass the frame's own check and fail in the canonical JSON (`RequestIsBuilt`).

## Conventions

- Digests (SHA-256) stand for what they are taken of, where they serve as keys or fingerprints. HMAC is an uninterpreted
  function; where a proof must identify a frame, the absence of a collision between the two texts at hand is a
  precondition.
- Timestamps are integers; clocks, random nonces and generated ids are parameters. A transaction is one atomic step; a
  crash keeps what was durable.
- Errors are collapsed to one refusal where the code rolls the whole transaction back; elsewhere their codes are kept.
- Nested dictionaries keyed by device and number are flattened to one map; sorted id lists are sets.

## Model

| member | source | states |
|---|---|---|
| SyncConvergence.StrongConvergence | packages/sync-protocol/src/ameme_sync_protocol/simulator.py:84-204 | strong convergence: two fresh peers that get the same envelopes of their space in any orders, with any duplicates and foreign traffic between, end with equal cursors and snapshots, provided slots are unambiguous, an idempotency key is shared only by ordinary envelopes of one device, no device that sends is revoked, and nothing comes after its authorization expired; grant revocations, quarantined schemas and early tombstones are allowed |
| SyncConvergence.SameEnvelopesSameState | packages/sync-protocol/src/ameme_sync_protocol/simulator.py:316-322 | cursors and snapshot are a function of the set of envelopes a peer has taken in, whatever the path that led there |
| SyncConvergence.SharedKeyDiverges | packages/sync-protocol/src/ameme_sync_protocol/simulator.py:166-174 | two devices may not share a key: of two revisions of different events only the first to arrive is kept, so the order shows |
| SyncDeletion.SharedKeyDivergesWithinDevice | packages/sync-protocol/src/ameme_sync_protocol/simulator.py:118-174 | nor may a revision and a tombstone of one device share a key: the tombstone is applied at once when it comes early, and then the revision before it is refused |
| SyncConvergence.RevocationDiverges | packages/sync-protocol/src/ameme_sync_protocol/simulator.py:156-159 | the no-revocation condition is needed: a revision of the revoked device survives only when it arrives before the revocation |
| SyncWindow.RecordedNumbersArePartitioned | packages/sync-protocol/src/ameme_sync_protocol/simulator.py:95-147 | in every run and for every origin the recorded numbers are the disjoint union of 1..cursor, the pending and the quarantined ones, and everything pending is at least two past the cursor |
| SyncWindow.ReceiveKeepsWindow | packages/sync-protocol/src/ameme_sync_protocol/simulator.py:84-137 | one delivery keeps the window, records exactly its own slot if that is new, forgets no quarantined slot, and never answers with the stale-sequence code |
| SyncWindow.NewSlotIsAhead | packages/sync-protocol/src/ameme_sync_protocol/simulator.py:102-118 | the stale-sequence branch is dead code: an unrecorded slot is always past the cursor |
| SyncWindow.QuarantineBlocksCursor | packages/sync-protocol/src/ameme_sync_protocol/simulator.py:118-147 | a quarantined number stays quarantined and the cursor of its origin stays below it, whatever is delivered later |
| SyncTrace.AppliedIffDue | packages/sync-protocol/src/ameme_sync_protocol/simulator.py:115-174 | an envelope has been through _apply_semantics exactly when its number is at or below the cursor or it waits pre-applied beyond a gap |
| SyncTrace.CallsAreOnceAndInOrder | packages/sync-protocol/src/ameme_sync_protocol/simulator.py:115-174 | two applications in a run concern different slots; ordinary envelopes of one origin are applied in ascending order; no idempotency key takes effect twice |
| SyncTrace.ApplyWritesOneRecord | packages/sync-protocol/src/ameme_sync_protocol/simulator.py:149-224 | one application writes exactly one audit record, with the code it returns, and uses up the idempotency key exactly for the codes that mean an effect |
| SyncProjection.ProjectionMeaning | packages/sync-protocol/src/ameme_sync_protocol/simulator.py:245-314 | the revision of an untombstoned event is the least number missing from its bases and the ancestry gaps are the bases above; a field is in conflict exactly when the last gap-free base that mentions it holds two values, with each alternative and its proposers; otherwise its value is the one that base agrees on; a field in conflict keeps the value of the last base that agreed |
| SyncDeletion.TombstoneIsPermanent | packages/sync-protocol/src/ameme_sync_protocol/simulator.py:176-193 | once tombstoned, an event projects as deleted forever, stores no further revision and loses no tombstone |
| SyncSimulator.CompleteProofMeaning | packages/sync-protocol/src/ameme_sync_protocol/simulator.py:433-482 | in every run of the simulator, a required peer of a complete deletion proof shows the target as deleted exactly when some tombstone it recorded for it was neither quarantined nor refused |
| SyncSimulator.CompleteProofIsSound | packages/sync-protocol/src/ameme_sync_protocol/simulator.py:433-482 | so a complete proof is sound when no required peer turned a tombstone down |
| SyncSimulator.DuplicateQuarantineCompletesProof | packages/sync-protocol/src/ameme_sync_protocol/simulator.py:433-439 | the condition is needed: a quarantined tombstone delivered twice completes the proof of a peer that never deleted the target |
| SyncSimulator.DeletedIffNotTurnedDown | packages/sync-protocol/src/ameme_sync_protocol/simulator.py:176-193 | a peer has deleted the target of a recorded tombstone exactly when one such tombstone was neither quarantined nor refused |
| SyncPeer.Peer.constructor | packages/sync-protocol/src/ameme_sync_protocol/simulator.py:24-46 | a new peer is the empty state of its configuration |
| SyncPeer.Peer.SetAuthorizationExpiry | packages/sync-protocol/src/ameme_sync_protocol/simulator.py:48-49 | changes the expiry of one device and nothing else |
| SyncPeer.Peer.Emit | packages/sync-protocol/src/ameme_sync_protocol/simulator.py:51-82 | an own envelope takes the next number even when it is refused as malformed; otherwise it is put in the outbox and received like any other |
| SyncPeer.Peer.ReceiveEnvelope | packages/sync-protocol/src/ameme_sync_protocol/simulator.py:84-137 | the in-place receive, with its early returns, is the transition Receive that the theorems are about |
| SyncPeer.Peer.DrainPending | packages/sync-protocol/src/ameme_sync_protocol/simulator.py:139-147 | the drain loop terminates and is the transition Drain |
| SyncPeer.Peer.Apply | packages/sync-protocol/src/ameme_sync_protocol/simulator.py:149-204 | _apply_semantics on the fields of the peer is the transition ApplySemantics |
| SyncPeer.ProjectRevisions | packages/sync-protocol/src/ameme_sync_protocol/simulator.py:260-314 | the nested loops over bases, fields and alternatives compute ProjectLive, in whatever order sets are enumerated |
| SyncPeer.Peer.StateSnapshot | packages/sync-protocol/src/ameme_sync_protocol/simulator.py:316-322 | the snapshot lists every known event with its projection |
| SyncHarness.DeterministicSimulator.constructor | packages/sync-protocol/src/ameme_sync_protocol/simulator.py:355-366 | two or three fresh peers of one space and no traffic |
| SyncHarness.DeterministicSimulator.HandTo | packages/sync-protocol/src/ameme_sync_protocol/simulator.py:388-445 | a delivery to a connected peer is received at the current tick and its receipt tracked |
| SyncHarness.DeterministicSimulator.TrackTombstone | packages/sync-protocol/src/ameme_sync_protocol/simulator.py:433-439 | which receipts credit a peer with a deletion |
| SyncHarness.DeterministicSimulator.DeliverTo | packages/sync-protocol/src/ameme_sync_protocol/simulator.py:388-406 | a delivery to a peer that is offline is queued and changes no peer |
| SyncHarness.DeterministicSimulator.SetOnline | packages/sync-protocol/src/ameme_sync_protocol/simulator.py:416-423 | going offline and online changes connectivity only |
| SyncHarness.DeterministicSimulator.ReplayOffline | packages/sync-protocol/src/ameme_sync_protocol/simulator.py:425-431 | replaying hands over the whole queue in either order once the peer is online, and does nothing while it is not |
| SchemaEvolution.CompatibleAcceptsAll | scripts/validation/check_contract_compatibility.py:37-139 | compatibility soundness: when the comparison finds nothing wrong and the new schema adds no constraint, every instance accepted under the old schema is accepted under the new one, for all schemas whose reference chains end, at any depth of properties, items and $defs |
| SchemaEvolution.CompatibleDocuments | scripts/validation/check_contract_compatibility.py:37-139 | for whole documents: a clean comparison of the roots makes every common definition compatible, so every definition keeps its instances |
| SchemaEvolution.NewLimitSlipsThrough | scripts/validation/check_contract_compatibility.py:70-81 | a limit the old schema lacks passes the comparison and refuses an accepted instance |
| SchemaEvolution.NewUniquenessSlipsThrough | scripts/validation/check_contract_compatibility.py:37-139 | uniqueItems is never compared: adding it passes and refuses an accepted instance |
| SchemaEvolution.NewPropertySlipsThrough | scripts/validation/check_contract_compatibility.py:100-113 | a new property where unlisted ones were allowed passes and refuses an accepted instance, as soon as its schema refuses any value |
| SchemaScripts.ContractValidator.ValidateInstance | scripts/validation/validate_contracts.py:98-178 | validate_instance adds no error exactly when the instance is accepted in the sense of Accepts, and only ever appends to the errors |
| SchemaScripts.ContractValidator.ResolveRef | scripts/validation/validate_contracts.py:62-69 | a reference resolves to the definition it names, or one error is reported |
| SchemaScripts.ContractValidator.ValidateObject | scripts/validation/validate_contracts.py:128-140 | required members, closedness and the members themselves |
| SchemaScripts.ContractValidator.ValidateArray | scripts/validation/validate_contracts.py:142-153 | length, uniqueness and the items |
| SchemaScripts.ContractValidator.ValidateItems | scripts/validation/validate_contracts.py:150-153 | no error is added exactly when every item is accepted |
| SchemaScripts.Comparison.CompareNode | scripts/validation/check_contract_compatibility.py:37-139 | _compare_schema appends no error exactly when the two schemas are compatible, and never removes one |
| SchemaScripts.Comparison.CompareMembers | scripts/validation/check_contract_compatibility.py:100-126 | no member of properties or $defs may go missing, and the common ones are compared |
| TwoStoreRuns.ExactlyOnce | services/ameme-mcp-mock/ameme_mcp_mock/core_store.py:304-504 | over every run of create_event and append_revision with faults, crashes and restarts, client keys shared between the two or not: two returning calls give the same id exactly when they used the same key for the same operation, and the row of that id is in Core, made by that operation only |
| TwoStoreRuns.OneRowForEachId | services/ameme-mcp-mock/ameme_mcp_mock/core_store.py:304-504 | no event or revision is written twice: one id is one row of one event |
| TwoStoreRuns.RevisionsAreAppends | services/ameme-mcp-mock/ameme_mcp_mock/core_store.py:399-504 | the history of an event in any run: its first revision was made by one creation, the i-th later one by one append that was prepared for exactly the revision before it |
| TwoStoreRuns.AtMostOneEventPerKey | services/ameme-mcp-mock/ameme_mcp_mock/core_store.py:304-397 | Core never holds more events than distinct keys were used to create one |
| TwoStoreRuns.ReturnedEventIsPinned | services/ameme-mcp-mock/ameme_mcp_mock/core_store.py:89-135 | the row behind an answer has the content the caller asked for, with the values pinned by the call that prepared the operation first (clock, time, sensitivity, base revision as Core showed them then), whatever clock the returning call had |
| TwoStore.ChangedMeaningConflicts | services/ameme-mcp-mock/ameme_mcp_mock/core_store.py:89-135 | a call conflicts exactly when its target is visible and its slot is bound to another meaning; that, and a target out of sight, write nothing and do not ask Core |
| TwoStoreRuns.ReuseConflicts | services/ameme-mcp-mock/ameme_mcp_mock/core_store.py:89-135 | once a call has returned for a slot, every later call with another meaning conflicts, or finds its event out of sight, and changes nothing |
| TwoStoreRuns.AnswerExactly | services/ameme-mcp-mock/ameme_mcp_mock/core_store.py:304-504 | the answer of a call that meets no fault and is not cut short, exactly and in every consistent state: not visible, key conflict, the stored answer, failed for good, Core conflict, revision conflict, or a return |
| TwoStoreRuns.OnlyRefusalIsFinal | services/ameme-mcp-mock/ameme_mcp_mock/core_store.py:152-162 | an operation fails for good only after Core refused one of its commands or where a conflict is, and still is, in its way; busy stores and crashes leave it open |
| TwoStoreRuns.ReturnsExactly | services/ameme-mcp-mock/ameme_mcp_mock/core_store.py:304-504 | after any run in which Core never refused the operation, one undisturbed call returns if and only if its event is visible, the evidence under its key is not that of the other operation, and its event has not moved past the base it was prepared for |
| TwoStoreRuns.EventuallyReturns | services/ameme-mcp-mock/ameme_mcp_mock/core_store.py:304-397 | so a key used for create_event only can always be finished by one undisturbed call, unless Core refused it |
| TwoStoreRuns.ConflictsComeFromSharing | services/ameme-mcp-mock/ameme_mcp_mock/core_store.py:229-302 | a Core conflict arises only when the same client key was used for the other operation before |
| TwoStoreRuns.SharedKeyCloses | services/ameme-mcp-mock/ameme_mcp_mock/core_store.py:229-302 | and there it does arise: after a call has returned, the other operation under the same key with other content is refused, changes no event and fails for good |
| TwoStoreRuns.ConflictAppendHidesItself | services/ameme-mcp-mock/ameme_mcp_mock/core_store.py:411-420 | an append with fact status conflict puts its event out of sight, so its own retry is never answered with the revision it made |
| TwoStoreRuns.RefinesAtomicStep | services/ameme-mcp-mock/ameme_mcp_mock/core_store.py:304-504 | a call with all its saves and commits refines one atomic step that adds at most one entry per operation, taken whenever the call returns; each entry has its row in Core, an append right after its base, and Core holds the rows of that abstract store and no others |
| TwoStoreRuns.RunKeepsRecords | services/ameme-mcp-mock/ameme_mcp_mock/core_store.py:89-150 | what Core recorded, the revisions of every event and what the control file bound are never lost or changed later in a run |
| TwoStore.CallIsSafe | services/ameme-mcp-mock/ameme_mcp_mock/core_store.py:304-504 | every call, wherever it is cut short, keeps memory, disk and Core consistent, touches no row of another operation, and reports a conflict only where there is one |
| TwoStore.CallKeepsBindings | services/ameme-mcp-mock/ameme_mcp_mock/core_store.py:89-135 | a call never rebinds a slot or its pinned values |
| TwoStoreNode.CoreEventNodeStore.SaveControl | services/ameme-mcp-mock/ameme_mcp_mock/core_store.py:78-87 | a save either makes memory durable or is the point where the call dies or fails |
| TwoStoreNode.CoreEventNodeStore.BeginOperation | services/ameme-mcp-mock/ameme_mcp_mock/core_store.py:89-135 | a slot is prepared, replayed, refused or in conflict; pinned values are saved before Core is touched |
| TwoStoreNode.CoreEventNodeStore.RecordCoreFailure | services/ameme-mcp-mock/ameme_mcp_mock/core_store.py:152-162 | only a failure that is not retryable closes the slot |
| TwoStoreNode.CoreEventNodeStore.RunCommand | packages/core-reference/ameme_core_reference/core.py:190-217 | a Core command with a known key replays its record or conflicts; otherwise effect and record are one transaction, and an append applies to its base revision only |
| TwoStoreNode.CoreEventNodeStore.CaptureEvidence | services/ameme-mcp-mock/ameme_mcp_mock/core_store.py:229-302 | contract, source and observation are recorded in order under their keys, and the first failure ends the call |
| TwoStoreNode.CoreEventNodeStore.CompleteOperation | services/ameme-mcp-mock/ameme_mcp_mock/core_store.py:137-150 | the operation is completed with the answer the caller gets |
| TwoStoreNode.CoreEventNodeStore.CreateEventRecord | services/ameme-mcp-mock/ameme_mcp_mock/core_store.py:304-397 | create_event on the fields of the node, cut short anywhere, is the transition Perform |
| TwoStoreNode.CoreEventNodeStore.AppendRevisionRecord | services/ameme-mcp-mock/ameme_mcp_mock/core_store.py:399-504 | append_revision on the fields of the node, with its visibility check first, is the transition Perform |
| CoreRebuild.RebuildAgrees | packages/core-reference/ameme_core_reference/core.py:1617-1694 | after any run whose ledgers use one timezone per owner and space, rebuilding from the log gives back current rows, search rows, ledgers, entries and revisions exactly when no tombstoned event has a live current row (the case of one zone; RebuildChangesNothingExactly has any) |
| CoreRebuild.RebuildChangesNothing | packages/core-reference/ameme_core_reference/core.py:1617-1694 | on one-zone runs whose commands respect tombstones rebuild is the identity: incremental upkeep agrees with recomputation |
| CoreRebuild.RebuildIsIdempotent | packages/core-reference/ameme_core_reference/core.py:1617-1694 | on all runs, whatever zones and tombstones, a second rebuild changes nothing |
| CoreZones.RebuildChangesNothingExactly | packages/core-reference/ameme_core_reference/core.py:1617-1694 | after any run, in whatever zones, rebuild is the identity if and only if tombstoned events are deleted and no ledger was left out by a command without being refreshed by a later one |
| CoreZones.StaleExactly | packages/core-reference/ameme_core_reference/core.py:2517-2597 | after any run, in whatever zones, a ledger differs from its recomputation exactly when some command touched its day without refreshing it and no later command refreshed it |
| CoreZones.StepFreshens | packages/core-reference/ameme_core_reference/core.py:2288-2367 | a command (accept, append, conflict, undo, group, coverage, read, delete, rebuild) keeps all ledgers fresh exactly when no ledger identity on a day it touches is left out of the keys it refreshes |
| CoreZones.StepStales | packages/core-reference/ameme_core_reference/core.py:2517-2597 | a ledger is out of date after a command exactly when the command left it out, or it was out of date before and is not refreshed: nothing but a refresh catches it up |
| CoreZones.RevisionLeavesOut | packages/core-reference/ameme_core_reference/core.py:2288-2367 | what a revision leaves out: the ledgers in other zones of the day it is written on, and of the day where the event was listed before |
| CoreRebuild.StepBuries | packages/core-reference/ameme_core_reference/core.py:2288-2367 | a command keeps every tombstoned event deleted exactly when it does not append a live revision to one and does not delete a source of an event whose status is conflict, which would keep it live |
| CoreZones.OtherZoneGoesStale | packages/core-reference/ameme_core_reference/core.py:2288-2367 | after any run, every command that leaves a ledger out makes rebuild differ: an append, conflict or undo whose event has a ledger in another zone on its day or on the day it is moved away from, a new event or episode, or a deletion |
| CoreZones.LedgersAreNeverAhead | packages/core-reference/ameme_core_reference/core.py:2517-2597 | after any run, in whatever zones, no ledger counts more revisions than the log has |
| CoreExamples.SecondZoneGoesStale | packages/core-reference/ameme_core_reference/core.py:1473-1544 | any reachable event gets there in two commands: its day is read in another zone, then the event is revised |
| CoreExamples.TwoZonesDiffer | packages/core-reference/ameme_core_reference/core.py:2517-2597 | a concrete run with one event and two zones that rebuild changes |
| CoreRebuild.RunKeepsGrounded | packages/core-reference/ameme_core_reference/core.py:2369-2398 | in every run the current rows are the newest revisions, the search rows match them, and coverage, identities and ledgers fit together |
| CoreRebuild.RunKeepsLedgersFresh | packages/core-reference/ameme_core_reference/core.py:2517-2597 | on one-zone runs every ledger equals its recomputation from the log after every command |
| CoreDeletion.DeletionSucceeds | packages/core-reference/ameme_core_reference/core.py:1191-1351 | on a sound store a source can be deleted exactly when it exists and is not deleted yet |
| CoreSupport.DeletableExactly | packages/core-reference/ameme_core_reference/core.py:1191-1351 | after any run a source can be deleted exactly when it exists, is not deleted yet, and every live event that cites it cites, besides it, only sources that are not deleted |
| CoreSupport.DeletionSucceedsExactly | packages/core-reference/ameme_core_reference/core.py:1191-1351 | the same on any store whose evidence is well-formed |
| CoreSupport.RunKeepsSupported | packages/core-reference/ameme_core_reference/core.py:2120-2156 | every run keeps the evidence of every event well-formed: known observations of its space, each cited once by a field |
| CoreDeletion.SourcesStayDeletable | packages/core-reference/ameme_core_reference/core.py:1191-1351 | on runs without revivals the third condition always holds: each source can be deleted once |
| CoreExamples.RevivalBlocksDeletion | packages/core-reference/ameme_core_reference/core.py:2288-2367 | it can fail: a concrete run deletes an event and one of its two sources, revises the event back to life, and leaves the other source undeletable |
| CoreCascade.Cascade | packages/core-reference/ameme_core_reference/core.py:1206-1279 | what a list of deletions makes of an event: unchanged when untouched, deleted when no source is left, otherwise live with exactly the outside observations and everything else recomputed from them |
| CoreCascade.LiveIffEvidenceIsLeft | packages/core-reference/ameme_core_reference/core.py:1206-1279 | an event is live after any deletions exactly when some of its evidence came from outside the deleted set |
| CoreCascade.SurvivorsAreKept | packages/core-reference/ameme_core_reference/core.py:2158-2204 | each field keeps exactly its surviving observations, no confidence rises, and no deleted source is cited any more |
| CoreCascade.OrderMattersOnlyToConfidence | packages/core-reference/ameme_core_reference/core.py:2158-2204 | two orders of the same deletions agree on liveness, fields, observations, sources, description and revision |
| CoreCascade.OrdersAgreeOnConfidenceIff | packages/core-reference/ameme_core_reference/core.py:2158-2204 | they agree on the whole evidence exactly when, entry by entry, losing either first source leaves the same least confidence |
| CoreCascade.OrderChangesConfidence | packages/core-reference/ameme_core_reference/core.py:2158-2224 | and in general they do not: a concrete event ends with high or with low confidence depending on the order |
| CoreDeletion.DeletionsCascade | packages/core-reference/ameme_core_reference/core.py:1191-1351 | sources can be deleted in any order: every deletion succeeds and every event becomes what Cascade says |
| CoreDeletion.DeletedSourcesAreForgotten | packages/core-reference/ameme_core_reference/core.py:1206-1279 | on reachable stores: after the deletions an event that was live, undisputed and backed by evidence is live exactly when some evidence came from elsewhere, and cites none of the deleted sources |
| CoreDeletion.DeletionOrderAgrees | packages/core-reference/ameme_core_reference/core.py:1206-1279 | on a store, two orders of the same deletions leave the same events live with the same observations |
| CoreDeletion.RunKeepsSound | packages/core-reference/ameme_core_reference/core.py:979-1102 | runs without revivals keep every event's evidence valid, one entry per field and free of deleted sources |
| CoreOracleTables.NewestVersions | packages/core-reference/ameme_core_reference/core.py:1617-1694 | the grouped maximum over the revision table finds the newest version of every id |
| CoreOracleTables.EvidenceAfterSourceDeletion | packages/core-reference/ameme_core_reference/core.py:2158-2204 | the loop over evidence entries computes EvidenceAfter, or raises exactly for an unknown observation |
| CoreOracleTables.CoreOracle.NextId | packages/core-reference/ameme_core_reference/core.py:180-188 | a fresh id, never given before |
| CoreOracleTables.CoreOracle.Rollback | packages/core-reference/ameme_core_reference/core.py:170-178 | a failed transaction leaves every table as it was |
| CoreOracleTables.CoreOracle.LedgerIdentity | packages/core-reference/ameme_core_reference/core.py:2500-2515 | the identity of a ledger is created once and then kept |
| CoreOracleTables.CoreOracle.EpisodeEntries | packages/core-reference/ameme_core_reference/core.py:2521-2537 | the live episodes of a day and the events they contain |
| CoreOracleTables.CoreOracle.EventEntries | packages/core-reference/ameme_core_reference/core.py:2530-2541 | the live events of a day that no episode of the day contains |
| CoreOracleTables.CoreOracle.CountRevisions | packages/core-reference/ameme_core_reference/core.py:2553-2569 | the revisions on a day are counted whatever their timezone |
| CoreOracleTables.CoreOracle.RefreshLedger | packages/core-reference/ameme_core_reference/core.py:2517-2597 | the ledger, its entries and its revision are those of Refresh |
| CoreOracleTables.CoreOracle.UpsertEventCurrent | packages/core-reference/ameme_core_reference/core.py:2369-2398 | the current row and the search row; a search row exists exactly for live events |
| CoreOracleTables.CoreOracle.InsertEventRevision | packages/core-reference/ameme_core_reference/core.py:2237-2286 | the revision is appended and becomes current |
| CoreOracleTables.CoreOracle.ValidateEvidence | packages/core-reference/ameme_core_reference/core.py:2120-2156 | accepts exactly valid evidence and returns its sources |
| CoreOracleTables.CoreOracle.AppendEventRevisionTx | packages/core-reference/ameme_core_reference/core.py:2288-2367 | appends exactly when the base is the head and the change is valid; conflict status overwrites the requested state |
| CoreOracleTables.CoreOracle.Accept | packages/core-reference/ameme_core_reference/core.py:888-979 | accept_event adds one event with a fresh id or changes nothing |
| CoreOracleTables.CoreOracle.Undo | packages/core-reference/ameme_core_reference/core.py:1051-1102 | undo_event restores an old revision as a new one, if it still passes validation |
| CoreOracleTables.CoreOracle.RecordCompetingRevision | packages/core-reference/ameme_core_reference/core.py:1013-1049 | record_conflict appends a conflict revision or changes nothing |
| CoreOracleTables.CoreOracle.SetDayCoverage | packages/core-reference/ameme_core_reference/core.py:254-294 | coverage is stored and the ledger refreshed |
| CoreOracleTables.CoreOracle.DeleteFromEvent | packages/core-reference/ameme_core_reference/core.py:1227-1268 | one affected event is recomputed from what remains, or deleted, or blocks the deletion |
| CoreOracleTables.CoreOracle.RecomputeEpisodes | packages/core-reference/ameme_core_reference/core.py:2450-2498 | episodes lose the deleted events and die with the last of them; exactly the touched ledgers are returned |
| CoreOracleTables.CoreOracle.DeleteFromEvents | packages/core-reference/ameme_core_reference/core.py:1225-1276 | the loop over affected events succeeds exactly when none of them blocks, in any order |
| CoreOracleTables.CoreOracle.DeleteSourceObject | packages/core-reference/ameme_core_reference/core.py:1191-1351 | delete_source is one transaction: all of events, episodes, tombstones and ledgers, or nothing |
| CoreOracleTables.CoreOracle.ReplayEvents | packages/core-reference/ameme_core_reference/core.py:1625-1648 | the event rows rebuilt one by one are those of the log |
| CoreOracleTables.CoreOracle.ReplayEpisodes | packages/core-reference/ameme_core_reference/core.py:1649-1671 | the episode rows rebuilt one by one are those of the log |
| CoreOracleTables.CoreOracle.RebuildProjections | packages/core-reference/ameme_core_reference/core.py:1617-1694 | rebuild, with its loops, is the function Rebuild |
| CoreOracleTables.CoreOracle.ReadToday | packages/core-reference/ameme_core_reference/core.py:1473-1544 | reading a day creates its ledger when there is none and otherwise changes nothing |
| VaultSafety.VaultIsCrashSafe | packages/core-reference/ameme_core_reference/core.py:368-501 | after any run, cut short anywhere: a ready object has its file, a deleted one has none, none is missing, and the counted bytes stay within the quota |
| VaultSafety.RecoveryLeavesReferencedFiles | packages/core-reference/ameme_core_reference/core.py:1805-1848 | after opening the store, every file on disk belongs to a ready or delete-pending object, no temporary file is left, and every ready object has its file |
| VaultSafety.NothingIsMissing | packages/core-reference/ameme_core_reference/core.py:1805-1848 | the missing mark of recovery is never set while files change only through the vault |
| VaultSafety.RunKeepsSound | packages/core-reference/ameme_core_reference/core.py:2001-2092 | every step, crash and recovery keeps jobs, manifests, files and queue entries consistent; acknowledged and pending replicas always make up the required ones |
| VaultSafety.ProofsAreTrue | packages/core-reference/ameme_core_reference/core.py:2008-2092 | a completed deletion is kept for the objects its job listed (no file of them, every replica acknowledged), carries its proof, and its linked queue entry is completed at the same time and not otherwise |
| VaultSources.DeletedSourcesKeepOnlyExpired | packages/core-reference/ameme_core_reference/core.py:1456-1462 | over every run: of the source of a completed deletion only the files of objects are left that were staged for expiry and are outside the list of the job |
| VaultSources.DeletionLeavesExactly | packages/core-reference/ameme_core_reference/core.py:1456-1462 | once a deletion is completed, an object of its source still has its file exactly when the deletion found it staged for expiry with its file and no later step unlinked it; a deleted source gets no new object |
| VaultSources.NothingIsLeftExactly | packages/core-reference/ameme_core_reference/core.py:561-598 | so no file of the source is left if and only if every object that awaited its purge has been unlinked since |
| VaultExamples.CompletionCanLeaveAFile | packages/core-reference/ameme_core_reference/core.py:561-598 | a concrete run that ends so: an object staged for expiry, its source deleted with proof, the file of the object still there |
| VaultSafety.CheckedProofsAreExact | packages/core-reference/ameme_core_reference/core.py:2031-2060 | once checked again, as deletion, retry and opening do, a job is completed exactly when its deletion is kept |
| VaultSafety.CompletedExactly | packages/core-reference/ameme_core_reference/core.py:2031-2092 | between checks a job is completed exactly when its deletion is kept and its own list of pending objects is empty |
| VaultSafety.CompletionLags | packages/core-reference/ameme_core_reference/core.py:1869-1894 | and the list can lag: finalising the last object keeps the deletion without completing the job |
| VaultExamples.CompletionCanLag | packages/core-reference/ameme_core_reference/core.py:1869-1894 | a concrete run that ends so: the object erased, every replica done, the job not completed |
| VaultSafety.JobsAdvance | packages/core-reference/ameme_core_reference/core.py:2062-2092 | over any stretch of a run a job keeps its objects and required replicas, and acknowledgements only grow |
| VaultSafety.CompletionIsFinal | packages/core-reference/ameme_core_reference/core.py:694-705 | completed is absorbing: a completed deletion stays completed and kept whatever happens next |
| VaultQueue.LeasesAreBounded | packages/core-reference/ameme_core_reference/core.py:631-673 | a caller's job is leased at most max_attempts times in any run, and while queued it can still be leased |
| VaultQueue.AttemptsCountLeases | packages/core-reference/ameme_core_reference/core.py:631-673 | the attempts column counts the leases granted |
| VaultQueue.DeletionEntriesAreRequeued | packages/core-reference/ameme_core_reference/core.py:2062-2092 | not so for a deletion's own entry: checking an unfinished deletion queues it again however often it was tried, even after it failed |
| VaultExamples.LeasesAreUnbounded | packages/core-reference/ameme_core_reference/core.py:2062-2092 | for every n there is a run that grants the entry of one deletion n leases, although its maximum is ten, and leaves it queued |
| VaultQueue.FinishedForGood | packages/core-reference/ameme_core_reference/core.py:675-761 | a caller's completed or failed job never changes again |
| VaultQueue.LeaseIsExclusive | packages/core-reference/ameme_core_reference/core.py:1981-1989 | a lease ends only by its owner before expiry, by leasing after expiry, or, for a deletion, by the deletion itself |
| VaultQueue.LeaseTakesTheNext | packages/core-reference/ameme_core_reference/core.py:631-673 | a lease takes the available job that is first by (priority descending, creation, id), gives it to the worker, and leaves the others |
| VaultQueue.NextIsUnique | packages/core-reference/ameme_core_reference/core.py:646-660 | the order by priority, creation and id leaves no choice |
| VaultQueue.BackoffIsBounded | packages/core-reference/ameme_core_reference/core.py:715-761 | the delay lies between base and cap and never shrinks as attempts grow |
| VaultQueue.RunKeepsKeysUnique | packages/core-reference/ameme_core_reference/core.py:1909-1964 | no two queue entries ever share an idempotency key |
| VaultStore.DurableStore.RawVaultUsage | packages/core-reference/ameme_core_reference/core.py:549-559 | the loop sums the bytes of ready and delete-pending objects |
| VaultStore.DurableStore.StoreObject | packages/core-reference/ameme_core_reference/core.py:368-501 | store_raw with its file writes, commits and clean-up, cut at any point and with a clean-up that may fail, is StoreRaw; it returns exactly when nothing refuses or cuts it |
| VaultStore.DurableStore.StageRawDeletions | packages/core-reference/ameme_core_reference/core.py:1850-1867 | all manifests are staged or none |
| VaultStore.DurableStore.DeleteSourceObject | packages/core-reference/ameme_core_reference/core.py:1191-1351 | staging, job and queue entry in one transaction |
| VaultStore.DurableStore.StageExpired | packages/core-reference/ameme_core_reference/core.py:561-599 | expired objects are staged for deletion |
| VaultStore.DurableStore.FinalizeRawDeletion | packages/core-reference/ameme_core_reference/core.py:1869-1894 | unlink, then commit; it reports done only when the object is erased |
| VaultStore.DurableStore.PendingObjects | packages/core-reference/ameme_core_reference/core.py:1896-1907 | exactly the objects that are not cleaned up |
| VaultStore.DurableStore.UpdateDeletionJob | packages/core-reference/ameme_core_reference/core.py:2062-2092 | job row and queue entry move together |
| VaultStore.DurableStore.ReconcileDeletionJob | packages/core-reference/ameme_core_reference/core.py:2031-2060 | the state of a job is that of its objects and replicas |
| VaultStore.DurableStore.AcknowledgeDeletion | packages/core-reference/ameme_core_reference/core.py:1368-1405 | an acknowledgement moves one required replica and nothing else |
| VaultStore.DurableStore.FinalizeDeletionJob | packages/core-reference/ameme_core_reference/core.py:2008-2029 | every object is tried; without trouble the job is then completed exactly when no replica is pending |
| VaultStore.DurableStore.FinalizeObjects | packages/core-reference/ameme_core_reference/core.py:2008-2029 | a failing object does not stop the others |
| VaultStore.DurableStore.FinalizePending | packages/core-reference/ameme_core_reference/core.py:1805-1848 | opening finishes every pending deletion and touches no ready object |
| VaultStore.DurableStore.CheckJobs | packages/core-reference/ameme_core_reference/core.py:1805-1848 | afterwards each job is completed exactly when its replicas have acknowledged |
| VaultStore.DurableStore.RecoverRawVault | packages/core-reference/ameme_core_reference/core.py:1805-1848 | whatever the last process left: no deletion half done, exactly the files of ready objects on disk, all ready objects kept |
| VaultStore.DurableStore.FindKey | packages/core-reference/ameme_core_reference/core.py:1909-1964 | finds the entry of a key or proves there is none |
| VaultStore.DurableStore.EnqueueJob | packages/core-reference/ameme_core_reference/core.py:601-629 | an equal key with an equal order gives the first job back; an equal key with another order is refused |
| VaultStore.DurableStore.ReleaseExpiredLeases | packages/core-reference/ameme_core_reference/core.py:1966-1979 | expired leases go back to the queue, or fail when attempts are used up |
| VaultStore.DurableStore.SelectNext | packages/core-reference/ameme_core_reference/core.py:631-673 | the least available entry by (priority descending, creation, id), or none when none is available |
| VaultStore.DurableStore.LeaseNextJob | packages/core-reference/ameme_core_reference/core.py:631-673 | the lease of the next job is the transition Lease |
| VaultStore.DurableStore.CompleteLeasedJob | packages/core-reference/ameme_core_reference/core.py:675-713 | only the unexpired owner completes, and a delete job only after its proof |
| VaultStore.DurableStore.FailLeasedJob | packages/core-reference/ameme_core_reference/core.py:715-761 | only the unexpired owner fails; the job waits or is failed for good |
| VaultStore.DurableStore.constructor | packages/core-reference/ameme_core_reference/raw_vault.py:29-43 | an empty vault with a fixed quota |
| AiRuntime.NothingIsResurrected | packages/ai-processing-reference/ameme_ai_reference/runtime.py:243-293 | in every reachable state no cache entry and no queued ticket holds evidence deleted in its space or revoked in its scope |
| AiRuntime.DeletedStaysRefused | packages/ai-processing-reference/ameme_ai_reference/runtime.py:311-324 | deleted evidence is refused for good in its space by cache, queue and pipeline, and the provider is not called |
| AiRuntime.RevokedStaysRefused | packages/ai-processing-reference/ameme_ai_reference/runtime.py:311-324 | revoked evidence likewise, in its scope |
| AiRuntime.RefusalsLast | packages/ai-processing-reference/ameme_ai_reference/runtime.py:243-293 | deleted and revoked evidence is never forgotten |
| AiRuntime.DrainIsExact | packages/ai-processing-reference/ameme_ai_reference/runtime.py:216-241 | a drain hands out exactly the queued tickets of the scope with the caller's generations, all clean, and leaves none of the scope behind |
| AiRuntime.PresentIsAHit | packages/ai-processing-reference/ameme_ai_reference/runtime.py:125-162 | the invalidated outcome of cache_get is unreachable: an allowed request whose key is cached is a hit |
| AiRuntime.CachedIsLastStored | packages/ai-processing-reference/ameme_ai_reference/runtime.py:164-185 | a cached response is the last one stored under its key, whatever was invalidated in between |
| AiRuntime.HitIsLastStored | packages/ai-processing-reference/ameme_ai_reference/runtime.py:125-162 | so a hit gives back the last stored response |
| AiRuntime.CandidateIsAccepted | packages/ai-processing-reference/ameme_ai_reference/pipeline.py:93-131 | the pipeline returns only accepted answers, calls the provider only on a miss within budget, pays once per call, and caches exactly what it returned |
| AiRuntime.CacheHoldsAccepted | packages/ai-processing-reference/ameme_ai_reference/pipeline.py:93-131 | in every run the cache holds only responses that passed the checks of the call that stored them |
| AiRuntime.CallsStayWithinBudget | packages/ai-processing-reference/ameme_ai_reference/runtime.py:102-123 | with a constant budget the provider is called at most that often per scope and policy generation, and never more often than was paid for |
| AiScopedRuntime.ScopedAIRuntime.PruneCache | packages/ai-processing-reference/ameme_ai_reference/runtime.py:256-267 | popping entries one by one leaves exactly the clean ones |
| AiScopedRuntime.ScopedAIRuntime.PruneBatch | packages/ai-processing-reference/ameme_ai_reference/runtime.py:269-284 | likewise for tickets |
| AiScopedRuntime.ScopedAIRuntime.InvalidateEvidence | packages/ai-processing-reference/ameme_ai_reference/runtime.py:243-293 | ids are remembered, then cache and batch are pruned |
| AiScopedRuntime.ScopedAIRuntime.ApplyContextRevocations | packages/ai-processing-reference/ameme_ai_reference/runtime.py:87-93 | a context's own deletions and revocations take effect first |
| AiScopedRuntime.ScopedAIRuntime.ReserveProviderBudget | packages/ai-processing-reference/ameme_ai_reference/runtime.py:102-123 | one unit is spent exactly when one is left |
| AiScopedRuntime.ScopedAIRuntime.Get | packages/ai-processing-reference/ameme_ai_reference/runtime.py:125-162 | hit, miss or refusal, with the revocations of the context applied |
| AiScopedRuntime.ScopedAIRuntime.Store | packages/ai-processing-reference/ameme_ai_reference/runtime.py:164-185 | stores exactly when the evidence is allowed |
| AiScopedRuntime.ScopedAIRuntime.EnqueueBatch | packages/ai-processing-reference/ameme_ai_reference/runtime.py:187-214 | queues a ticket under its key exactly when the evidence is allowed |
| AiScopedRuntime.ScopedAIRuntime.DrainBatch | packages/ai-processing-reference/ameme_ai_reference/runtime.py:216-241 | hands out and removes the tickets of the scope |
| AiScopedRuntime.CreateCandidateWith | packages/ai-processing-reference/ameme_ai_reference/pipeline.py:56-131 | create_candidate over the mutable runtime, gate by gate, is CreateCandidate |
| AiScopedRuntime.AskProvider | packages/ai-processing-reference/ameme_ai_reference/pipeline.py:93-131 | cache, budget, provider and checks in this order |
| DraftRules.BuildEventDraft | packages/ai-processing-reference/ameme_ai_reference/rules.py:152-283 | the loops over fields and observations build the draft described by IsBuilt, with event type, creation time and the ids that enter the candidate id; or fail for no data, several spaces, conflicting times, or a field that cites an id twice |
| DraftRules.DraftIsCanonical | packages/ai-processing-reference/ameme_ai_reference/rules.py:152-283 | the description determines the draft, so it depends only on which observations were given, and how often |
| DraftRules.PermutedItemsAgree | packages/ai-processing-reference/ameme_ai_reference/rules.py:152-283 | permuting the observations changes nothing, the candidate id included |
| DraftRules.DistinctCitesOnce | packages/ai-processing-reference/ameme_ai_reference/rules.py:192-204 | with distinct ids no field cites an id twice |
| DraftRules.FieldsCiteTheHighest | packages/ai-processing-reference/ameme_ai_reference/rules.py:170-204 | with distinct ids each field cites exactly the observations that carry it and that none outranks |
| DraftRules.ConflictsAreDisagreements | packages/ai-processing-reference/ameme_ai_reference/rules.py:192-204 | a field is a conflict exactly when those observations disagree |
| DraftRules.DraftIsSelfConsistent | packages/ai-processing-reference/ameme_ai_reference/schema.py:109-177 | with distinct ids every draft that is built passes the checker's reference, support, space, status, conflict and confidence tests |
| DraftRules.EventTypeIsSupported | packages/ai-processing-reference/ameme_ai_reference/schema.py:217-236 | the event type of a draft is that of an observation cited for a fact exactly when one of them has a known type |
| DraftRules.EntryIsAccepted | packages/ai-processing-reference/ameme_ai_reference/schema.py:126-190 | each field passes the checker on its own |
| DraftRules.TopAgreesOnStatus | packages/ai-processing-reference/ameme_ai_reference/rules.py:183-204 | observations of equal priority have equal status, so the cited ones never mix |
| DraftRules.EventTypeIsUnique | packages/ai-processing-reference/ameme_ai_reference/rules.py:241-253 | the tie-break by rank, id and type leaves no choice |
| DraftRules.ChooseEventType | packages/ai-processing-reference/ameme_ai_reference/rules.py:241-253 | the type of the highest-ranked observation cited for a fact, a correction counting whatever its status; without any, activity |
| DraftRules.LastCreated | packages/ai-processing-reference/ameme_ai_reference/rules.py:267-267 | the latest creation time among the observations |
| DraftRules.SelectField | packages/ai-processing-reference/ameme_ai_reference/rules.py:171-188 | the loop finds the observations carrying a field, as often as they were given, and their highest priority |
| DraftRules.SelectFields | packages/ai-processing-reference/ameme_ai_reference/rules.py:167-204 | the loop over the fields selects each independently of the order, and finds out whether one cites an id twice |
| DraftRules.Select | packages/ai-processing-reference/ameme_ai_reference/rules.py:187-204 | value or alternatives, confidence and cited observations of one field, and what they supersede |
| DraftRules.ListValues | packages/ai-processing-reference/ameme_ai_reference/rules.py:197-201 | the alternatives of a conflict, one for each observation that says so |
| DraftRules.GreatestConfidence | packages/ai-processing-reference/ameme_ai_reference/rules.py:194-194 | the confidence of a field is the greatest among the cited observations |
| Deduplication.Deduplicate | packages/ai-processing-reference/ameme_ai_reference/rules.py:79-120 | one pass keeps the first thing of every key and points each duplicate to it |
| Deduplication.DedupIsCanonical | packages/ai-processing-reference/ameme_ai_reference/rules.py:79-120 | the result depends only on the set of things, and each duplicate points to the least thing of its key |
| ContextPack.FitContextItem | services/ameme-mcp-mock/ameme_mcp_mock/core.py:607-636 | the whole item if it fits; otherwise the binary search returns the longest non-empty prefix that fits, or nothing exactly when none fits |
| ContextPack.BestFitIsUnique | services/ameme-mcp-mock/ameme_mcp_mock/core.py:607-636 | there is only one such answer |
| ContextPack.CutsGrow | services/ameme-mcp-mock/ameme_mcp_mock/core.py:601-604 | a longer prefix never costs fewer tokens, through JSON escaping and UTF-8 lengths |
| Utf8.BytesConcat | services/ameme-mcp-mock/ameme_mcp_mock/core.py:601-604 | UTF-8 lengths add up |
| ContextPack.Pack | services/ameme-mcp-mock/ameme_mcp_mock/core.py:546-563 | the packed items are a prefix of the candidates with at most the last one cut, their tokens sum to at most the budget, and nothing more could have been added |
| ChannelFrames.RequestRoundTrip | packages/agent-local-node-protocol/ameme_agent_local_node_protocol/channel.py:408-480 | a request frame fits in a channel line, and parsing it with a fresh nonce gives back the frame, the application bytes and the validated request |
| ChannelFrames.ResponseRoundTrip | packages/agent-local-node-protocol/ameme_agent_local_node_protocol/channel.py:483-552 | likewise for a response parsed with the request it answers |
| ChannelFrames.RequestIsBuilt | packages/agent-local-node-protocol/ameme_agent_local_node_protocol/channel.py:408-435 | a request frame is built exactly for a valid line, session, nonce and key and a sequence number up to 9007199254740991: larger ones that the frame's own check allows fail in the canonical JSON instead |
| ChannelFrames.ResponseIsBuilt | packages/agent-local-node-protocol/ameme_agent_local_node_protocol/channel.py:483-508 | a response frame is built exactly for a strict line within its limit that answers a well-formed request with a safe sequence number |
| ChannelFrames.SignedFrameFits | packages/agent-local-node-protocol/ameme_agent_local_node_protocol/channel.py:388-405 | every application line within its limit yields a frame within the line limit of 786432, after base64 and JSON text, that is read back whole |
| ChannelFrames.NoNonceIsAcceptedTwice | packages/agent-local-node-protocol/ameme_agent_local_node_protocol/channel.py:438-480 | whatever lines come in, in whatever order and however often, the nonces of accepted frames are pairwise different and new |
| ChannelFrames.ProofBindsTheFrame | packages/agent-local-node-protocol/ameme_agent_local_node_protocol/channel.py:192-210 | two accepted request frames with one proof are the same frame, unless the texts their proofs are taken of are a collision of the HMAC |
| ChannelFrames.ProofsKeepTheirKind | packages/agent-local-node-protocol/ameme_agent_local_node_protocol/channel.py:192-194 | a request and a response are never proved by the same text, so they share a proof only if their HMACs collide |
| ChannelFrames.KeysAreCanonical | packages/agent-local-node-protocol/ameme_agent_local_node_protocol/channel.py:73-97 | the frame keys are in code-point order without repetition, and the proof covers all but itself |
| ChannelFrames.SeenNonces.ParseRequestFrame | packages/agent-local-node-protocol/ameme_agent_local_node_protocol/channel.py:438-480 | an accepted frame adds exactly its nonce, a refused one leaves the set unchanged |
| ChannelFrames.SeenNonces.ParseResponseFrame | packages/agent-local-node-protocol/ameme_agent_local_node_protocol/channel.py:511-552 | the same for responses, whose nonce also differs from the request's |
| JsonLine.ObjectReadsBack | packages/agent-local-node-protocol/ameme_agent_local_node_protocol/protocol.py:444-473 | the strict reader gives back every canonical flat object within its limits, key for key and value for value |
| JsonLine.ObjectIsInjective | packages/agent-local-node-protocol/ameme_agent_local_node_protocol/protocol.py:137-146 | canonical text determines the values |
| JsonLine.LineReadsBack | packages/agent-local-node-protocol/ameme_agent_local_node_protocol/protocol.py:444-457 | writing and reading members are inverse |
| Base64.RoundTrip | packages/agent-local-node-protocol/ameme_agent_local_node_protocol/channel.py:394-405 | section 4 of RFC 4648: decoding inverts encoding |
| Base64.Encode | packages/agent-local-node-protocol/ameme_agent_local_node_protocol/channel.py:394-395 | four characters for every three bytes begun |
| Base64.EncodingIsPlain | packages/agent-local-node-protocol/ameme_agent_local_node_protocol/channel.py:394-395 | encodings need no escaping in JSON text |
| ReplayLedger.LedgerHoldsTheFirst | packages/agent-local-node-protocol/ameme_agent_local_node_protocol/protocol.py:490-517 | the ledger holds exactly the slots that were used, each with the fingerprint of the first request that used it |
| ReplayLedger.VerdictComesFromTheFirst | packages/agent-local-node-protocol/ameme_agent_local_node_protocol/protocol.py:496-517 | a request is new exactly when its slot was never used before in the history; otherwise it is a replay or a conflict by comparison with the first request of the slot |
| ReplayLedger.Ledger.Accept | packages/agent-local-node-protocol/ameme_agent_local_node_protocol/protocol.py:496-517 | the mutable ledger gives that verdict and remembers only new requests |

## Left out

- SyncConvergence.StrongConvergence: asks for no revocation of a device that sends and for no expired delivery; both refusals depend on the order of arrival.
- SyncPeer.Peer.StateSnapshot: partial reasons, the list of conflicts and the outcome text of evaluate are derived from the modelled state and are not modelled; audit digests and their truncation to 16 characters are dropped.
- SchemaEvolution.CompatibleAcceptsAll: one direction only; the comparison also refuses harmless changes (an equivalent pattern), and a new constraint may be implied by the old ones, so the condition is not necessary; three lemmas show what it excludes.
- SchemaScripts.ContractValidator.ValidateInstance: message wording is a path and a tag, the counter of checks is only known to grow, patterns and dates are oracles, and reference chains that never end (on which the script recurses forever) are excluded.
- SchemaScripts.Comparison.CompareNode: the checks it counts are only known to be positive. The OpenAPI half of the script is left out.
- TwoStoreRuns.ExactlyOnce: runs consist of create_event and append_revision. undo_capture, which takes its targets away again, delivery queue, policy blocks and evidence states are left out; what is a function of the modelled fields (confidence, reason, actor, hashes of contents) is not part of a payload, and the first revision of an event goes under the id of the event.
- CoreRebuild.RebuildAgrees: created and updated times, revision ids, lineage, candidates, locator history and addenda are not part of the state; entries of a ledger are a set, sorted when read; a ledger's id stands for its key.
- CoreOracleTables.CoreOracle.DeleteSourceObject: titles and descriptions after a deletion are symbolic (a label of the event type, a text made from the remaining fields); the raw objects and the deletion job of the same transaction are in the Vault files.
- CoreOracleTables.CoreOracle.Accept: the idempotency wrapper of Core commands is modelled only in the TwoStore files; create_episode, capture_source and create_observation are functions of the model without a method.
- CoreCascade.OrderMattersOnlyToConfidence: confidence is not order-independent in the code; OrdersAgreeOnConfidenceIff gives the exact condition.
- VaultStore.DurableStore.StoreObject: encryption, nonces, digests of contents and directory permissions are left out; the quota is fixed for a run.
- VaultStore.DurableStore.DeleteSourceObject: the event cascade and the tombstones of the same transaction are in the Core files.
- VaultStore.DurableStore.EnqueueJob: a caller's key and the key of a deletion's own entry are kept apart by their types, so a caller's key that imitates one is not modelled.
- VaultSafety.VaultIsCrashSafe: files change only through the vault; tampering and disk errors are not modelled.
- VaultQueue.LeasesAreBounded: for entries that are not linked to a deletion; DeletionEntriesAreRequeued shows that linked ones have no such bound.
- AiScopedRuntime.CreateCandidateWith: gate, draft rules, provider and candidate checks are parameters of the step, with the codes they raise; exceptions that are no processing errors, observer and route records are left out.
- DraftRules.BuildEventDraft: salience, title, description text, fact confidence and source ids are left out; ids and event types are represented by their rank in string order, lists of ids by sets, and the candidate id by what it is a digest of.
- Deduplication.Deduplicate: decide_merge, draft_from_provider_candidate and observation_from_addendum are left out; the first is a chain of guards without state.
- DraftRules.DraftIsSelfConsistent: the comparison of confidences is exact, stricter than the checker's tolerance of 1e-9.
- ContextPack.Pack: lone surrogates in texts, which UTF-8 refuses, are not modelled; scoring, policy and the pack's own record are left out.
- JsonLine.ObjectReadsBack: the reader knows objects of strings and integers, with insignificant spaces and escapes. A line that holds any other value is refused as malformed, where the code may name another reason; no such line is ever accepted, because every field of a frame is a string or an integer.
- Base64.RoundTrip: texts with surplus padding, on which library versions differ, are refused.
- ChannelFrames.RequestRoundTrip: SHA-256, HMAC and the validation of application messages are parameters, assumed only to give tagged hexadecimal text and well-formed slots. Hello messages, pairing material and session keys are left out.
- ReplayLedger.Ledger.Accept: validation and fingerprint are inputs.
- Inference gateway, Android and browser code, sockets, governance and demo scripts, fixed conformance vectors: input and output, user interface, or finite cases.
