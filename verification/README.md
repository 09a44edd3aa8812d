# Verification model

A Dafny model of the parts of the assistant where several actors share state, or where one piece of code has to
undo or agree with another. Six components are modelled, each from its data up to the guarantees its design relies on:

1. **Accelerator lease** (`Accelerator*.dfy`, `AdmissionService.dfy`): waiters compete for one GPU. Every repository
   call is one atomic step on the ledger; any number of clients interleave, and a crash is a client that takes no
   further step. Mutual exclusion, fencing, bounded overtaking, progress, recovery after a dead holder, how long a
   grant lasts and the timed argument behind the heartbeat, for every run. The queue and the admission service are
   classes whose methods are proved against those steps, with other clients' steps interleaved at every await.
2. **Approved-action execution** (`Action*.dfy`, `Reauthorization.dfy`, `JsonPointer.dfy`): a worker claims an
   approved proposal, checks everything again, dispatches and settles. Redelivery, concurrent workers, lease loss and
   crashes between any two steps are interleaved over one proposal row and its job. At-most-once, finality of an
   effect, "executed" only after a reported success, every call and transfer being the approved one, and the JSON
   pointers of section 3 and section 4 of RFC 6901.
3. **Session context** (`Context*.dfy`, `LenientReading.dfy`, `LegacyViews.dfy`, `Entity*.dfy`, `NameMatching.dfy`,
   `ReferenceResolver.dfy`, `DeicticReferences.dfy`, `RecentTurns.dfy`, `Summary*.dfy`, `Summarizer.dfy`,
   `SessionRuns.dfy`): reading stored dictionaries with legacy keys, printing them, the entity registry and the
   resolver that reads it, the window of recent turns and the summary over it. Round trips, read-your-write, exactly
   when a name persists, and invariants over whole runs that mix all three writers.
4. **Email backfill** (`EmailBackfill.dfy`, `Backfill*.dfy`): page jobs that enqueue their successors under two
   budgets, with reclaimed leases, retries and crashes. Each job's budgets hold for every provider; the backfill's own
   message and page totals hold exactly under stated conditions, and runs that break them are given.
5. **Agent loop** (`AgentEvaluator.dfy`, `AgentLoop.dfy`): plan, gate, execute, evaluate, for any planner, content
   gate and backend; the verdict, also with the repository's own planner.
6. **Upload guard** (`UploadGuard.dfy`): admission counters under interleaved requests and the streamed byte limit.

`Prelude.dfy`, `Text.dfy` and `Values.dfy` hold shared notions: options and results, ASCII text as Python's `strip`
and `lower` treat it, and JSON-like values whose dictionaries remember insertion order.

## Where the code and its promises differ

- `heartbeat` never looks at the expiry (`app/accelerator/repository.py:172-177`), so a lease that is overdue but not
  yet reaped is revived by a late heartbeat; any other call at that moment would have reaped it (`OverdueLeaseRevived`).
- A stored summary whose `source_turn_range` is null, a number or a boolean makes the whole context unreadable: the
  reader iterates over it (`app/context/serialization.py:226-243`). `ReadFailsIff` says exactly when, `NullRangeFails`
  gives one such dictionary.
- The legacy view of a readable context cannot be built when a pending interaction proposes "entities" that `dict()`
  refuses: `{"pending_interaction": {"proposed_action": {"entities": null}}}` is read, and building its view raises
  (`app/context/serialization.py:49-57`). `CompatFailsIff` says exactly when, `NullEntitiesFail` is that context, and
  `CompatRoundTrip` covers every other state.
- A name that resolves only through the alias index, because the alias belongs to an entity of another kind with the
  same shown name, stops resolving when some other entity takes that alias over. `NamePersistsIff`: a resolved name
  survives every sequence of upserts if and only if it was not such a hit. `IndexOnlyReached` builds one with two
  upserts: a shopping list "groceries" known as "food", and a switch "groceries".
- A backfill page that is read twice, because its worker died after it had enqueued the continuation, adds its second
  answer to the report while the continuation was enqueued with the first. `MismatchBreaksConservation` is a run whose
  pages all complete with a total of 10 against a last page that says 8, and in `MismatchBreaksBudget` the total is 14
  under a budget of 10 messages (`CrashRunTotals` for all counts). `CompletedAccount` gives the exact difference,
  `CompletedWithinBudget` says exactly when the total keeps the budget, and `RepeatableProviderConserves` shows that
  the difference is zero whenever the provider repeats itself.
- When the two answers also name different next tokens there are two jobs for the next page, and a backfill may get
  more jobs than its page limit (`TokensBreakPageLimit`: three jobs for two pages). There is one job a page exactly
  when the readings of each page agree on the next token (`OneJobPerPageIff`), and then the limit holds
  (`WithinPageLimit`).
- The agent loop counts a planner's "complete" as a success. "ok" therefore means as many successful steps as
  commands (`OkIff`), and the verdict "ok exactly when all commands were executed and succeeded" is right for a run if
  and only if the run did not do all earlier commands and then get "complete" for the last one (`VerdictRightIff`;
  `EarlyCompleteIsOk` for one command). The repository's planner never answers a listed command so
  (`PlannedDecisions`), so its verdicts are right (`PlannedVerdict`).
- A turn's text cut at the length limit may end in a blank; it loses that blank when the session is next read, so the
  window is stated up to it (`SessionRuns.ReadBack`).
- Array indices with leading zeros are accepted by the pointer evaluator, which section 4 of RFC 6901 rules out;
  `FoundIsNode` is stated for the code's rule.

## Model

| member | source | states |
|---|---|---|
| AcceleratorProofs.RunKeepsInv | app/accelerator/repository.py:83-227 | The lease invariant is kept by every interleaving of the seven calls: a waiter is acquired exactly when it owns the resource, the token counts the grants, and the history of grants is the ledger's own |
| AcceleratorProofs.MutualExclusion | app/accelerator/repository.py:83-164 | In every run from the empty ledger at most one waiter is acquired, it is the owner, the fencing token is the number of grants ever made, and no waiter is granted twice |
| AcceleratorProofs.RunEvolves | app/accelerator/repository.py:254-289 | Over every run a waiter's columns other than its status never change, and completed, cancelled and expired are never left |
| AcceleratorProofs.StaleForever | app/accelerator/repository.py:125-145 | A lease that has been superseded or cleared stays stale through every later run |
| AcceleratorProofs.StaleIsInert | app/accelerator/repository.py:166-215 | A stale client's heartbeat or release is refused and changes nothing at all |
| AcceleratorProofs.MatchesThroughout | app/accelerator/repository.py:166-215 | A lease matches at the end of a run if and only if it matched at every point of it, and then nobody was granted in between |
| AcceleratorProofs.TokenGrows | app/accelerator/repository.py:125-145 | Over every run the token grows by exactly the number of grants |
| AcceleratorProofs.FencingSafety | app/accelerator/repository.py:166-215 | From a grant on, a heartbeat or release is accepted exactly when the lease was never taken away in between; then there was no later grant, and otherwise the lease is dead for good |
| AcceleratorProofs.OverdueLeaseRevived | app/accelerator/repository.py:172-187 | A heartbeat of an unreaped overdue lease renews it, where any reaping call at that time would have ended it |
| AcceleratorProofs.GrantGoesAhead | app/accelerator/repository.py:113-124 | While a waiter waits, a grant goes only to somebody queued ahead of it, who is then no longer queued |
| AcceleratorProofs.BoundedOvertaking | app/accelerator/repository.py:113-152 | The grants made while a waiter waits are at most the waiters ahead of it at the start plus later arrivals that rank ahead |
| AcceleratorProofs.LaterEqualsNeverOvertake | app/accelerator/repository.py:113-124 | Later arrivals of the same or lower priority never overtake: the bound is the waiters ahead at the start |
| AcceleratorLeases.ArrivalsAreCounted | app/accelerator/repository.py:113-124 | The arrivals in the bound are the later enqueue calls that rank ahead, counted one by one |
| AcceleratorProofs.SomeoneIsFirst | app/accelerator/repository.py:113-124 | The queue order is total: every non-empty set of waiters has one that is ahead of all others |
| AcceleratorProofs.Progress | app/accelerator/repository.py:89-124 | Somebody can be granted if and only if the lease is free or past expiry and an unexpired waiter is queued, and then exactly one waiter can |
| AcceleratorProofs.DeadHolderKeepsExpiry | app/accelerator/repository.py:254-289 | A holder that sends no more heartbeats never gets a later expiry: it keeps the one it has until it is stale |
| AcceleratorProofs.CrashRecovery | app/accelerator/repository.py:89-124 | After a dead holder's expiry either a later grant is running or any unexpired waiter makes the accelerator grantable |
| AcceleratorProofs.TimedSafety | app/accelerator/repository.py:166-187 | When every call comes within the lease of the latest renewal, the lease is never reaped or replaced and every renewal is accepted |
| AcceleratorProofs.GapsMakeOnTime | app/accelerator/service.py:86-99 | On a clock that never goes back it is enough that consecutive renewals are less than the lease apart |
| AcceleratorLeases.GrantLasts | app/accelerator/repository.py:125-145 | A granted lease of 5 to 900 seconds runs exactly so long from the granting call, in the row and in the lease returned |
| AcceleratorLeases.RenewalLasts | app/accelerator/repository.py:166-187 | A renewal runs exactly so long from the heartbeat and changes nothing else |
| AcceleratorLeases.OnTimeFromGrant | app/accelerator/repository.py:83-187 | From the granting call on, in every run whose calls each come within the lease of the latest renewal, the holder keeps the lease, every renewal is accepted and nobody else is granted |
| AcceleratorLeases.NobodyBeforeExpiry | app/accelerator/repository.py:89-145 | Without any renewal at all, nobody else is granted on a forward clock before the granting call plus the lease |
| AcceleratorLeases.EnqueuedWaits | app/accelerator/repository.py:51-81 | An accepted waiter is queued with its own priority and lane, and its wait is the one asked for when that is in range |
| AcceleratorLeases.EnqueueTakesLanes | app/accelerator/repository.py:44-81 | A waiter is taken exactly if its lane, spelled small and without blanks around it, is a letter with 1 to 63 letters, digits or underscores behind it, and that is then its lane |
| AcceleratorLeases.WaiterKeepsPlace | app/accelerator/repository.py:254-289 | In every run before its expiry a waiter that is neither granted nor cancelled stays queued, with every column as it was |
| AcceleratorLeases.ExpiredNotGranted | app/accelerator/repository.py:89-124 | From its expiry on a waiter is never granted, and it is no longer queued after asking |
| AcceleratorLeases.SnapshotShows | app/accelerator/repository.py:229-252 | A snapshot shows a holder exactly when its lease has not run out, and counts the waiters whose wait has not |
| AcceleratorLeases.ReleaseFrees | app/accelerator/repository.py:189-215 | An accepted release leaves no holder and its waiter completed, the token unchanged |
| AcceleratorLeases.CancelEnds | app/accelerator/repository.py:217-227 | A queued waiter is cancelled; any other keeps its status, and nobody else changes |
| AcceleratorRepository.LeaseRepository.ExpireLocked | app/accelerator/repository.py:254-289 | Reaps the overdue lease and expires late waiters: the ledger becomes the specified one, grants unchanged |
| AcceleratorRepository.LeaseRepository.EnqueueWaiter | app/accelerator/repository.py:51-81 | Enqueue is the specified step, with its lane check and clamps |
| AcceleratorRepository.LeaseRepository.TryAcquireLease | app/accelerator/repository.py:83-164 | Acquire is the specified step: it scans for the first candidate, and a grant is recorded in the history |
| AcceleratorRepository.LeaseRepository.HeartbeatLease | app/accelerator/repository.py:166-187 | Heartbeat is the specified step and returns whether the lease matched |
| AcceleratorRepository.LeaseRepository.ReleaseLease | app/accelerator/repository.py:189-215 | Release is the specified step and returns whether the lease matched |
| AcceleratorRepository.LeaseRepository.CancelQueuedWaiter | app/accelerator/repository.py:217-227 | Cancel is the specified step: only a queued waiter is cancelled |
| AcceleratorRepository.LeaseRepository.TakeSnapshot | app/accelerator/repository.py:229-252 | A snapshot expires first and then reports the holder and the queued waiters of that ledger |
| AdmissionService.AdmissionQueue.constructor | app/accelerator/service.py:40-42 | The clamps: a lease of 5 to 900 seconds, a heartbeat of at least 0.5 and at most half the lease, values in range kept |
| AdmissionService.AdmissionQueue.HeartbeatTask | app/accelerator/service.py:86-99 | The heartbeat loop among others' steps: it stops exactly on a refused or failed renewal, and when every call is on time, or every beat late by less than half a lease, `lost` is never set and nobody else is granted |
| AdmissionService.AdmissionQueue.PollOnce | app/accelerator/service.py:61-69 | One poll among others' steps: the waiter is granted exactly when a lease is returned |
| AdmissionService.AdmissionQueue.WithLease | app/accelerator/service.py:45-84 | Whatever others do, the bracket leaves its waiter ended and not the holder; the body runs exactly when the waiter was granted |
| AdmissionService.AdmissionQueue.LateIsUndisturbed | app/accelerator/service.py:40-41 | With the clamps, on a clock that never goes back, a schedule whose beats each come less than half a lease after they fell due is undisturbed, so the heartbeat task never sets `lost` on it |
| AdmissionService.AdmissionQueue.GrantIsUndisturbed | app/accelerator/service.py:40-41 | The same from the granting call on: with the clamps, beats that are late by less than half a lease keep the granted lease, and nobody else is granted |
| AdmissionService.CancelSettles | app/accelerator/service.py:81-84 | A waiter that was never granted has ended after its cancellation |
| AdmissionService.ReleaseSettles | app/accelerator/service.py:81-84 | A granted waiter has ended and holds nothing after its release, whatever happened to its lease |
| JsonPointer.SplitJoin | app/core/approved_action_execution.py:127-145 | Splitting at "/" undoes joining, for parts without "/" |
| JsonPointer.JoinSplit | app/core/approved_action_execution.py:127-145 | Joining undoes splitting, for every text |
| JsonPointer.DecodeEscape | app/core/approved_action_execution.py:127-145 | Replacing ~1 and then ~0 undoes the escaping of section 3 of RFC 6901, for every segment |
| JsonPointer.OtherOrderFails | app/core/approved_action_execution.py:127-145 | The other replacement order does not: a concrete segment |
| JsonPointer.PointerValue | app/core/approved_action_execution.py:127-145 | The evaluation loop finds exactly what following the decoded segments finds |
| JsonPointer.PointerRoundTrip | app/core/approved_action_execution.py:127-145 | For every value and every path in it, the encoded pointer evaluates to the node at that path |
| JsonPointer.FoundIsNode | app/core/approved_action_execution.py:127-145 | Whatever the evaluation finds is a node of the value, at a path it can name |
| JsonPointer.PatternMatchMeans | app/core/approved_action_execution.py:147-155 | A pattern matches a pointer if and only if the pointer has at least as many segments and each segment of the pattern is a star or the pointer's at that place |
| JsonPointer.PatternCoversExtensions | app/core/approved_action_execution.py:147-155 | A pattern that matches a pointer matches every extension of it |
| JsonPointer.PatternSelectsSubtree | app/core/approved_action_execution.py:147-155 | What a matching pointer finds lies below a node that a pointer of the pattern's own length finds |
| ActionLedger.TransactKeepsRow | app/reviews/repository.py:639-908 | Every transaction keeps the row's shape and terms, and a closed proposal never changes |
| ActionLedger.ExecutingGate | app/reviews/repository.py:639-908 | The only way into executing is a claim of the approved row under its job's live lease, and the only ways out are settlements with the claim's own token |
| ActionLedger.TransactKeepsJob | app/jobs/repository.py:262-468 | A job's token counts its claims, which never exceed the attempts it may have; a lease that somebody holds after a call is one they held before, unless the call was the claim |
| ActionLedger.ExpiryMeans | app/reviews/repository.py:149-235 | A row past its expiry is closed by the next call that looks unless it is being executed, and its waiting job withdrawn; any other row and job stay as they are |
| ActionLedger.SettledTwice | app/reviews/repository.py:700-770 | A settlement sent again changes nothing, and is answered as before if and only if its reason is not blank and at most 120 characters long |
| ActionExecution.RunKeepsSafety | app/core/approved_action_execution.py:301-522 | Over every interleaving of deliveries, crashes and other components at most one invocation holds the claim, and the counts of calls and effects stay within what the row allows |
| ActionExecution.AtMostOnce | app/core/approved_action_execution.py:470-522 | The tool is called at most once more than it declared no effect, and at most one call had an effect |
| ActionExecution.NoDispatchAfterEffect | app/core/approved_action_execution.py:470-522 | Once a call has had an effect no invocation, old or new, ever calls the tool again |
| ActionExecution.RunKeepsBinding | app/core/approved_action_execution.py:307-331 | In every run an invocation past the gate names the proposal's own terms, and one ready to dispatch has passed every check |
| ActionExecution.EveryDispatchAsApproved | app/core/approved_action_execution.py:332-471 | Every call of the tool, in every run, has the operation, arguments hash, authorization, descriptor, resource version, user, agent and batch of the initial terms, and every transferred value and source as approved, for the arguments approved |
| ActionExecution.EveryTransferAsApproved | app/core/approved_action_execution.py:185-299 | In every run, where the approval recorded the hash of a value for a destination, the arguments dispatched hold that value there |
| ActionExecution.RunKeepsArguments | app/reviews/repository.py:639-770 | In every run, arguments that are still kept, in the row or by an invocation, are the ones approved |
| ActionExecution.StageKeepsSafety | app/core/approved_action_execution.py:470-541 | A claim, a denial or a settlement, accepted or refused, keeps at most one active invocation and the counts; only a declared no-effect reopens the row |
| ActionSettlement.SettlementMeans | app/core/approved_action_execution.py:469-522 | Settling a dispatch under its own live claim, by what the tool reported: executed with the receipt only for "ok" or "queued" with one, denied for a refusal, open again for a declared no-effect, and failed for everything else, a thrown error included |
| ActionSettlement.OnlySuccessExecutes | app/core/approved_action_execution.py:469-522 | A single step makes the row executed only by settling a reported success, with its receipt |
| ActionSettlement.ExecutedOnlyBySuccess | app/core/approved_action_execution.py:469-522 | In every run from a row that is not executed, the row is executed only if some call of the tool in that run reported "ok" or "queued" with a receipt, and the stored receipt is that call's |
| ActionSettlement.GateMeans | app/core/approved_action_execution.py:303-322 | What a matching delivery hears before the claim, for each state of the row |
| ActionSettlement.GateRefusesOthers | app/core/approved_action_execution.py:303-306 | A delivery that does not match its proposal is refused as such whatever the state |
| ActionSettlement.ClaimMeans | app/reviews/repository.py:639-698 | A delivery that passed the gate of an approved, unexpired row under a live lease takes the row, and the arguments it goes on with are the row's |
| ActionSettlement.DenialMeans | app/core/approved_action_execution.py:524-541 | A failed check under the live claim leaves the row denied, without arguments, and the invocation denied for the same reason |
| ActionSettlement.SettlementRepeats | app/core/approved_action_execution.py:469-541 | So every settlement and denial of the service may be sent twice with one and the same answer |
| ActionSettlement.NamesIff | app/core/approved_action_execution.py:99-120 | The gate takes exactly the payload written for its proposal, every field of it and no other |
| ActionSettlement.DueDelivery | app/core/approved_action_execution.py:301-541 | From delivery to settlement, for a due delivery that nobody disturbs: the tool is called, once, exactly when the call prepared is the one approved; then what it reports is settled, and otherwise the proposal is denied |
| ActionService.ExecutionService.BeginActionExecution | app/reviews/repository.py:639-698 | The claim method is the specified transaction, reply included |
| ActionService.ExecutionService.FinishActionExecution | app/reviews/repository.py:700-770 | The settlement method is the specified transaction, reply included |
| ActionService.ExecutionService.RetryAfterNoEffect | app/reviews/repository.py:864-908 | The retry method is the specified transaction, reply included |
| ActionService.ExecutionService.Execute | app/core/approved_action_execution.py:301-522 | One delivery among others' steps is a run of the system: its own steps each once, in the source's order and up to the stage where it ends, with theirs in between |
| ActionService.ExecutionService.Settle | app/core/approved_action_execution.py:469-522 | What the tool reported decides the transaction and the outcome, branch by branch |
| ActionService.ExecutionService.SettleDenial | app/core/approved_action_execution.py:524-541 | A failed check is written as a denial before the invocation ends |
| ActionService.ExecutionService.CheckGate | app/core/approved_action_execution.py:301-330 | The read before the claim decides as the specified gate does |
| ActionService.ExecuteKeepsSafety | app/core/approved_action_execution.py:301-522 | So a worker's whole run keeps at-most-once, whatever honest steps interfered |
| Reauthorization.FindFailure | app/core/approved_action_execution.py:220-299 | The checking loops return the first failing entry's reason |
| Reauthorization.FindTransferFailure | app/core/approved_action_execution.py:185-299 | The transfer checks in the source's order, with both loops, give the specified reason |
| Reauthorization.ReauthorizeIff | app/core/approved_action_execution.py:332-469 | The checks let a claimed proposal through if and only if the prepared call is the approved one in every respect: nothing else passes and nothing approved is stopped |
| Reauthorization.DispatchIsTheApprovedCall | app/core/approved_action_execution.py:332-430 | A call that passes has the approved operation, arguments, authorization, descriptor and resource version, for the requester's and the agent's own active identity |
| Reauthorization.TransferredValuesUnchanged | app/core/approved_action_execution.py:185-299 | Every value approved for a destination pointer is the value now found there |
| Reauthorization.SourcesStillAllowed | app/core/approved_action_execution.py:185-299 | Every source is still granted with the same descriptor, its pointer lies under an approved pattern, and a cross-domain flow is one the matrix allows |
| Reauthorization.NoLaundering | app/core/approved_action_execution.py:17-25 | Allowed crossings cannot be chained around the matrix: any chain of them is allowed directly |
| Reauthorization.CrossesIff | app/core/approved_action_execution.py:17-25 | Ordinary data may go anywhere, anything else only to its own kind or to what is highly restricted, which gives nothing away |
| ContextRoundTrip.ReadNormal | app/context/serialization.py:16-36 | Every state that can be read is in normal form |
| ContextRoundTrip.ReadBasePrinted | app/context/types.py:138-153 | Reading a printed state gives it back, with the turns' text stripped |
| ContextRoundTrip.MigrationIdempotent | app/context/serialization.py:16-140 | For every readable dictionary, reading, merging the printed state over it with the legacy keys kept, and reading again gives the same state |
| ContextRoundTrip.CompatRoundTrip | app/context/serialization.py:45-83 | Unless the entities proposed by a pending interaction are refused, the legacy view of any state that was read exists and reading it back gives that state |
| ContextRoundTrip.CompatFailsIff | app/context/serialization.py:49-57 | The legacy view cannot be built exactly when a pending interaction proposes entities that `dict()` refuses |
| ContextRoundTrip.NullEntitiesFail | app/context/serialization.py:49-57 | A concrete stored dictionary that can be read and has no legacy view |
| ContextRoundTrip.AdaptAbsorbs | app/context/serialization.py:86-168 | After the adapters have run, the same legacy keys have nothing left to add |
| ContextRoundTrip.ReadFailsIff | app/context/serialization.py:226-243 | For finite numbers, reading fails exactly when the stored summary has a turn range that cannot be iterated |
| ContextRoundTrip.NullRangeFails | app/context/serialization.py:226-243 | A concrete stored dictionary that cannot be read |
| LenientReading.JunkTurnIsSkipped | app/context/serialization.py:185-205 | An entry among the stored turns that is not a dictionary makes no difference to the context that is read |
| LenientReading.TurnsRead | app/context/serialization.py:185-205 | Dictionaries among the stored turns are all read, in order |
| LenientReading.TurnRead | app/context/serialization.py:185-205 | A turn shows each stored text without outer blanks, and the default for whatever is missing, blank or not text |
| LenientReading.EntityRead | app/context/serialization.py:246-277 | So does an entity, with a whole-number salience taken as it is |
| LenientReading.NumberRead | app/context/serialization.py:323-335 | Numbers of any stored type are read, fractions cut off towards zero |
| ContextReader.SessionContext.EnsureLegacyEntity | app/context/serialization.py:143-168 | In place: the entity is appended unless one of that kind has the name |
| ContextReader.SessionContext.ApplyLegacyAdapters | app/context/serialization.py:86-140 | In place: the state becomes the adapted one, step by step |
| ContextReader.Deserialize | app/context/serialization.py:16-36 | The reader method returns what the specification reads, error included |
| ContextReader.ParseRegistryLoop | app/context/serialization.py:246-277 | The registry loops build exactly the parsed entities and the cleaned alias map |
| ContextReader.FindBestEntityName | app/context/serialization.py:171-182 | The loop finds the name of the first entity of highest salience |
| LegacyViews.LegacyRead | app/context/serialization.py:86-140 | A context stored before versioning is always readable, and what each of its keys becomes in the state |
| LegacyViews.LegacyViewIsLegacy | app/context/serialization.py:45-140 | Such a context read and viewed again says the same under every legacy key: names, sticky reason, turns left, pending clarification and both sessions |
| LegacyViews.StickyGone | app/context/serialization.py:45-83 | A sticky follow-up with no turns left is not shown in the legacy view |
| LegacyViews.LegacyNameResolves | app/context/serialization.py:86-168 | Every spelling of a legacy name, in whatever case, resolves for the next reader to the entity shown under it |
| LegacyViews.BestIsHighest | app/context/serialization.py:171-182 | The entity shown is of the kind, has a name, has the highest salience and is the first of that salience; none is shown only when there is none |
| EntityNames.NormalizeIdempotent | app/context/entity_registry.py:238-242 | Normalizing a normalized name changes nothing, for all ASCII text |
| NameMatching.CaseIsForgotten | app/context/entity_registry.py:238-242 | Two texts that differ only in which letters are capitals have the same normal form |
| NameMatching.MarksAreKept | app/context/entity_registry.py:238-242 | Normalizing loses no letter, digit or hyphen and keeps their order |
| NameMatching.SeparatorsAreOneSpace | app/context/entity_registry.py:238-242 | Two words with any number of blanks and underscores between them become the two words with one space |
| NameMatching.DifferentMarksDiffer | app/context/entity_registry.py:238-242 | So texts that differ in a letter, digit or hyphen stay different names |
| EntityNames.InsertAllIncreasing | app/context/entity_registry.py:220-235 | Alias lists are sorted and free of duplicates |
| EntityProofs.AliasesOfName | app/context/entity_registry.py:220-235 | The aliases of a name are normal, not empty and sorted, and contain the name's own normal form and every alias given |
| EntityProofs.UpsertShape | app/context/entity_registry.py:84-155 | An upsert writes exactly one entity, at the place where it was recognized or at the end |
| EntityProofs.UpsertResolves | app/context/reference_resolver.py:49-91 | Read your write: the name just upserted resolves, in its domain and type, to exactly the upserted entity |
| NameMatching.VariantResolves | app/context/reference_resolver.py:49-91 | Read your write in any spelling of the case: every variant of an upserted name resolves to exactly the upserted entity |
| EntityProofs.AddsIffStranger | app/context/entity_registry.py:84-180 | An upsert adds an entity if and only if no entity of the kind goes by a form of the name or of an alias given |
| EntityProofs.MergeHolds | app/context/entity_registry.py:126-154 | A merge unites the aliases and hints, takes over what was recorded, keeps the kind, and never lowers the salience |
| EntityProofs.ShortFormIsAlias | app/context/entity_registry.py:220-235 | A name's short form, without its article or the word "list" behind it, is an alias of it |
| EntityProofs.UpsertKeepsNames | app/context/entity_registry.py:96-154 | Every upsert keeps each entity's own name among its aliases and never moves a name's first match back |
| EntityProofs.NamesPersist | app/context/entity_registry.py:96-154 | A name some entity carries resolves after every sequence of upserts, at the same place or earlier |
| EntityProofs.IndexOnlyNameLost | app/context/reference_resolver.py:84-91 | A name found only through the alias index is lost when a new entity records that alias |
| EntityProofs.NamePersistsIff | app/context/reference_resolver.py:75-91 | A resolved name keeps resolving over every sequence of upserts if and only if it was not found through the alias index alone |
| EntityProofs.IndexOnlyReached | app/context/reference_resolver.py:84-91 | Two upserts into an empty registry make a name that resolves through the alias index alone, and some later upserts lose it |
| EntityProofs.BestIsChampion | app/context/reference_resolver.py:94-115 | The best candidate is shown, of the kind, outranks every earlier one and is outranked by none; there is none only without candidates |
| EntityProofs.DeicticMeansBest | app/context/reference_resolver.py:62-73 | A deictic reference resolves to that entity, or to nothing when there is no candidate |
| DeicticReferences.SwitchDeicticIff | app/context/reference_resolver.py:17-47 | Of a switch, a phrase of plain words is deictic if and only if it is a set phrase, or starts with a pronoun and has nothing but trailing words behind it |
| DeicticReferences.ListWordsForgotten | app/context/reference_resolver.py:136-139 | Of a list, an article before a word and "list" behind it make no difference to whether it is deictic |
| EntityProofs.BatchSyncs | app/context/entity_registry.py:44-82 | A batch that changes something leaves the alias index rebuilt from the entities |
| EntityProofs.RankedDescending | app/context/entity_registry.py:182-194 | Ranking leaves nobody behind someone they outrank |
| EntityProofs.RecordedRegistry | app/context/entity_registry.py:44-82 | After a batch that changes something: an index rebuilt from the survivors, at most the limit of them, and nobody dropped who outranks somebody kept |
| EntityRegistryManager.RegistryObject.SyncAliasMap | app/context/entity_registry.py:269-280 | In place: the alias map becomes the index of the entities |
| EntityRegistryManager.RegistryObject.FindExisting | app/context/entity_registry.py:157-180 | The scan returns the first entity recognized in any of the four ways |
| EntityRegistryManager.RegistryObject.UpsertEntity | app/context/entity_registry.py:84-155 | In place, field by field: the registry becomes the specified one and the flag says whether it changed |
| EntityRegistryManager.RegistryObject.PruneRegistry | app/context/entity_registry.py:182-194 | In place: the highest ranked entities stay, the index is rebuilt |
| EntityRegistryManager.Manager.RecordEntities | app/context/entity_registry.py:44-82 | Nothing is written back unless some upsert changed something; otherwise the stored context holds the recorded registry |
| RecentTurns.AppendedShape | app/context/session_context_manager.py:62-107 | An exchange appends at most two turns, none only when both texts are blank, the user's before the assistant's, with the cleaned texts, numbered on from the counter |
| RecentTurns.TextKept | app/context/session_context_manager.py:167-178 | A turn's text has every letter of what was said up to the limit, no outer blanks and no two blanks in a row; its normalized text is its variant without capitals |
| RecentTurns.WindowIsLongest | app/context/session_context_manager.py:129-142 | The kept turns are the longest suffix within both limits (one turn is always kept), and dropped and kept turns together are all turns |
| RecentTurns.PrunedTwice | app/context/session_context_manager.py:109-114 | Pruning by count and then by length keeps what one search for the longest fitting suffix keeps |
| RecentTurns.RecordingChanges | app/context/session_context_manager.py:116-123 | An exchange that is not silent always changes the stored context |
| RecentTurns.CountsAddUp | app/context/session_context_manager.py:104-127 | The reported counts add up: turns there and appended are turns pruned and left, and those left are within both limits unless only one is left |
| RecentTurns.SessionContextManager.PruneByChars | app/context/session_context_manager.py:135-142 | The popping loop drops the least number of turns that makes the rest fit |
| RecentTurns.SessionContextManager.RecordExchange | app/context/session_context_manager.py:38-127 | The stored context and the returned counts are the specified ones, the silent and the unreadable cases included |
| SummaryWording.FirstsDistinct | app/context/summarizer.py:354-368 | The phrases kept are not blank, distinct up to case, and represent every phrase given |
| SummaryContents.FirstsAreNew | app/context/summarizer.py:354-368 | They are exactly the phrases that are new where they stand, in the order given and without outer blanks |
| SummaryContents.LatestIsLast | app/context/summarizer.py:343-352 | The latest request quoted is that of the last user turn that says anything |
| SummaryContents.GoalsMean | app/context/summarizer.py:142-162 | The goals are what is pending, what is asked for now and the latest request quoted, each present exactly when there is any |
| SummaryWording.DedupeValues | app/context/summarizer.py:354-368 | The loop returns those phrases in order of first occurrence, cut at the limit |
| SummaryWording.DecisionsAreSettled | app/context/summarizer.py:164-179 | The decisions listed are those of the answers whose status settles something, and all of them |
| SummaryContents.DecisionsGoBack | app/context/summarizer.py:164-179 | One decision for each settling answer, the latest first |
| SummaryContents.DecisionMeans | app/context/summarizer.py:164-179 | An answer settles something when its stored status, blanks and letter case aside, is one of five; the decision names its intent and that status |
| SummaryContents.ThreadMeans | app/context/summarizer.py:181-193 | A pending interaction is an open thread exactly unless completed or cancelled; the thread names its intent and the first two fields it waits for |
| SummaryContents.EntitiesByRank | app/context/summarizer.py:195-211 | Entities are named so that nobody named later outranks somebody named earlier |
| SummaryContents.PhraseNames | app/context/summarizer.py:195-211 | An entity's phrase names its domain and ends in its name, or in dots when the name is too long |
| SummaryWording.WordedWithin | app/context/summarizer.py:213-236 | The text and each list of a summary stay within their limits |
| SummaryContents.TextNames | app/context/summarizer.py:213-236 | The text names the first two phrases of each list and the first three entities, unless it was cut at the limit, and then it ends in dots |
| SummaryWording.ResolvedDecisions | app/context/summarizer.py:164-179 | The backward loop with its early stop gives the latest decisions, without repetitions |
| SummaryWording.BuildSummary | app/context/summarizer.py:111-140 | The summary built is the specified one: goals, decisions, threads, entities, text and range |
| Summarizer.RangeIsSpan | app/context/summarizer.py:239-256 | For consecutively numbered turns the range is first and last number, or the one number |
| Summarizer.RefreshSettles | app/context/summarizer.py:258-303 | Right after a refresh, only force, a completed task or the length budget can trigger another one for the same focus |
| Summarizer.SummaryNotStale | app/context/summarizer.py:279-290 | After any call fewer turns than the interval lie between the last summary and the counter |
| Summarizer.SummaryManager.TurnCounter | app/context/summarizer.py:319-333 | The annotated counter if positive, or else the highest number among the turns |
| Summarizer.SummaryManager.MaybeRefresh | app/context/summarizer.py:44-109 | The stored context and the report are the specified ones; without a trigger nothing changes |
| SessionRuns.ReadBack | app/context/serialization.py:16-36 | What was stored is what the next reader sees: turns up to stripping, summary, annotations, and the entities with legacy names at most added behind |
| SessionRuns.AfterStores | app/context/session_context_manager.py:116-123 | Each of the three managers' calls stores the state it writes or leaves the context alone |
| SessionRuns.RunKeepsTracked | app/context/session_context_manager.py:60-123 | Over every run of exchanges, refreshes and recorded entities the turns are numbered consecutively up to the stored counter and stay within the limits |
| SessionRuns.RefreshCoversWindow | app/context/summarizer.py:239-256 | In every run from an empty session a refresh reads back with the range [counter - kept + 1, counter], or the one number |
| SessionRuns.RecordedNameResolves | app/context/entity_registry.py:44-82 | Read your write through the stored session, whether or not the recording changes anything: the next reader resolves the recorded name to the recorded entity |
| EmailBackfill.StepKeepsInv | scripts/manage_email_backfill.py:58-99 | Every step, with any provider answer, keeps the budgets, the links between pages and what the checkpoints say |
| EmailBackfill.BudgetsHold | scripts/manage_email_backfill.py:143-206 | In every run every single job has page index below its page limit and processed below its message limit, and what its checkpoint has processed is within the message limit |
| EmailBackfill.RunExtends | app/jobs/repository.py:161-241 | Jobs are never removed and keep their page; new ones come last |
| EmailBackfill.KeyStays | scripts/manage_email_backfill.py:40-42 | A page key, once taken, stays with its job |
| EmailBackfill.PickIsEarliest | app/jobs/repository.py:262-386 | The job claimed can be claimed, none that can has been available for longer, and it is the first of those |
| EmailBackfill.SweepMeans | app/jobs/repository.py:262-330 | Before a claim a running job is given up exactly when its lease has run out, and a waiting one exactly when it is to be cancelled; nothing else changes |
| EmailBackfill.FourAttempts | app/jobs/repository.py:262-468 | In every run no page is read more than four times |
| EmailBackfill.EndedStays | app/jobs/repository.py:388-468 | A completed, failed or cancelled job that nobody owns stays as it is, whatever happens |
| EmailBackfill.ContinuationInBudget | scripts/manage_email_backfill.py:167-184 | A continuation that is allowed is always within the budget of its root |
| BackfillTotals.TotalAnyOrder | scripts/manage_email_backfill.py:256-268 | The report's total does not depend on the order in which the jobs are listed |
| BackfillTotals.TotalIsLastPlusDrift | scripts/manage_email_backfill.py:256-268 | For completed pages the total is the last page's count plus the sum of the mismatches between consecutive pages |
| BackfillTotals.ConservedIff | scripts/manage_email_backfill.py:163-164 | Every prefix of the pages adds up if and only if every page started where the one before it ended |
| BackfillTotals.CompletedAccount | scripts/manage_email_backfill.py:249-284 | Both of these in every run and for every provider, once all pages of a backfill are completed |
| BackfillTotals.CrashRunTotals | scripts/manage_email_backfill.py:163-184 | For all counts of a run in which a page is read twice: both pages complete, the report adds up the second reading, and the last page starts from the first |
| BackfillTotals.MismatchBreaksConservation | scripts/manage_email_backfill.py:172-184 | An instance: the report says 10, the last page 8 |
| BackfillTotals.MismatchBreaksBudget | scripts/manage_email_backfill.py:256-268 | An instance with a budget of 10 messages: the report says 14 |
| BackfillTotals.CompletedWithinBudget | scripts/manage_email_backfill.py:249-284 | In every run and for every provider, the total of a completed backfill is at most its message budget plus the drift, and within the budget exactly when the drift fits into what the last page left of it; always when the links agree |
| BackfillPages.OneJobPerPageIff | scripts/manage_email_backfill.py:40-42 | In every run there is one job for each page of each backfill if and only if the readings of a page that are followed up agree on the next token |
| BackfillPages.WithinPageLimit | scripts/manage_email_backfill.py:167-184 | Then a backfill has at most as many jobs as its page limit, whatever the readings count |
| BackfillPages.TokensBreakPageLimit | scripts/manage_email_backfill.py:167-184 | A run with two tokens for one page: three jobs under a limit of two pages |
| BackfillProvider.RunKeepsChains | scripts/manage_email_backfill.py:172-184 | With a provider that repeats itself the pages of a backfill form one chain, each fixed by the one before it, through every crash and retry |
| BackfillProvider.RepeatableProviderConserves | scripts/manage_email_backfill.py:249-284 | Then pages are numbered without gap or repetition within the page limit, and once all are completed the total is exactly the last page's count, within the message limit, with nothing left to read |
| BackfillQueue.BackfillStatus | scripts/manage_email_backfill.py:249-284 | The report counts jobs by status, adds up the completed pages, and says whether some page finished or stopped on a budget |
| BackfillQueue.Queue.EnqueuePage | scripts/manage_email_backfill.py:58-99 | A page is refused exactly outside the bounds or the budget, and enqueued at most once by its key |
| BackfillQueue.Queue.EnqueueRoot | scripts/manage_email_backfill.py:45-55 | A root is accepted exactly for 1 to 100 messages a page, 1 to 500 pages and 1 to 50000 messages |
| BackfillQueue.AnswerReads | scripts/manage_email_backfill.py:146-171 | There is a next page exactly when the reply's token is not blank, under the token without outer blanks, and the six counts are the reply's own, negative ones as 0 |
| BackfillQueue.Queue.RunOnce | scripts/manage_email_backfill.py:123-229 | One worker run among others' steps is a run of the system. It is idle exactly when nothing can be claimed; left in peace for the time of its lease it does the page exactly when the reply holds no more messages than were asked for, and otherwise hands it back. A page done has stored the reply's own six counts, names the next page's job under the reply's token exactly when there is budget for one, with the count so far if that job is new, and says pagination is complete exactly for a blank token |
| BackfillQueue.CalmKeeps | app/jobs/repository.py:262-330 | A lease is still held after any steps of others, claims before its expiry included, that do not withdraw the job |
| BackfillQueue.Queue.CancelBackfill | scripts/manage_email_backfill.py:287-304 | Exactly the waiting pages of the backfill are cancelled and counted, and none waits afterwards |
| AgentEvaluator.ClassifiedIff | app/core/executor.py:74-94 | Only the eleven allowed intents with entities reach the backend, with a confidence in [0, 1] |
| AgentEvaluator.PolicyBlockIff | app/core/evaluator.py:161-174 | A failure is a policy block if and only if one of its four texts speaks of policy or of blocking, although the texts are searched joined |
| AgentEvaluator.FirstClassDecides | app/core/evaluator.py:160-211 | A failure whose texts speak of policy, missing data, absence or a passing fault is of the first of these classes |
| AgentEvaluator.ClassIgnoresCase | app/core/evaluator.py:160-211 | Texts that differ only in capitals are classified alike |
| AgentEvaluator.BlockedIsPolicyBlock | app/core/agent_loop.py:127-137 | The outcome of a refused command is classified as a policy block |
| AgentEvaluator.ContinuesIff | app/core/evaluator.py:16-158 | The loop goes on exactly after an executed command with more to come that succeeded, or failed below the limit for a transient or unknown reason |
| AgentLoop.BackendDecides | app/core/executor.py:19-72 | A command that reaches the backend is a success exactly when the backend answers "ok", whatever its message; one without a typed, allowed intent is a failure |
| AgentLoop.Run | app/core/agent_loop.py:39-263 | The loop takes exactly the specified steps and reports their counts, state, status and trace, which has at most one entry more than the step limit |
| AgentLoop.FailureBudget | app/core/agent_loop.py:174-256 | With any planner, gate and backend the loop never goes on with the limit of failures in a row reached |
| AgentLoop.FailuresInARow | app/core/agent_loop.py:174-182 | The failures counted at a step are the steps in a row up to it that did not succeed |
| AgentLoop.SuccessWithinBudget | app/core/agent_loop.py:174-256 | So a run that goes on has had a success among its latest steps, as many as the limit |
| AgentLoop.RefusedIsLast | app/core/agent_loop.py:107-139 | A command the gate refuses is not executed, is the last step, and the run asks for input |
| AgentLoop.RunIsBounded | app/core/agent_loop.py:102-105 | A run takes at most as many steps as there are commands, or one, and at most the step limit |
| AgentLoop.Verdict | app/core/agent_loop.py:306-329 | For a plan of one or more commands: successes, attempts and commands are ordered, the status is "ok" exactly when all commands were executed and succeeded, "partial" only with some but not all successes, "needs_input" exactly when the run waits, and "error" only when it failed |
| AgentLoop.WorldVerdict | app/core/agent_loop.py:306-329 | Over the world alone: with room for all n commands, a run ends "ok" with all n executed if and only if the planner executes each with a typed intent, the gate lets it through and the backend answers "ok" |
| AgentLoop.OkIff | app/core/agent_loop.py:306-329 | For any planner "ok" means as many steps as commands, each a success; they are all executed commands exactly when the last command is not answered with "complete" |
| AgentLoop.VerdictRightIff | app/core/agent_loop.py:174-178 | For n commands and any planner, "ok" means that all were executed and succeeded, if and only if the run did not do all but the last and then get "complete" for the last |
| AgentLoop.EarlyCompleteIsOk | app/core/agent_loop.py:174-178 | The one-command instance: "complete" ends "ok" with nothing attempted |
| AgentLoop.PlannedDecisions | app/core/planner.py:14-146 | The repository's planner never does that, and never executes a blank text |
| AgentLoop.PlannedMeans | app/core/planner.py:14-146 | A listed command that is not blank keeps its own text, intent and entities, and an approval that need not be asked for becomes an execution |
| AgentLoop.PlannedVerdict | app/core/agent_loop.py:102-263 | With it the verdict holds of every plan, and every command that was executed had passed the gate |
| UploadGuard.DeclaredLengthIff | app/api/document_limits.py:112-130 | A single decimal length is accepted exactly up to the byte limit |
| UploadGuard.FramingIff | app/api/document_limits.py:96-130 | A request's framing is accepted if and only if it has no length, or a single one, empty or decimal within the limit, without a transfer encoding; and which rejection each other framing gets |
| UploadGuard.RunKeepsInv | app/api/document_limits.py:130-174 | Over every interleaving of request starts and ends the counters equal the requests in flight, in all and for each principal, no entry is stored at zero, and both limits hold |
| UploadGuard.RefusedIffFull | app/api/document_limits.py:130-139 | In every run a new request is refused exactly when a limit is reached, and with nothing in flight nothing is left in the counters |
| UploadGuard.HandedWithinLimit | app/api/document_limits.py:141-154 | The bytes handed to the application never exceed the limit however long it keeps reading, and are all the bytes read as long as those are within it |
| UploadGuard.BodyReader.Receive | app/api/document_limits.py:141-154 | A message is handed on exactly when it came in time and the bytes so far are within the limit, and otherwise rejected with the right code |
| UploadGuard.DocumentRequestGuard.Admit | app/api/document_limits.py:130-136 | A request is counted in exactly when both limits leave room |
| UploadGuard.DocumentRequestGuard.Release | app/api/document_limits.py:166-174 | A request is counted out, and a bucket that reaches zero is removed |
| UploadGuard.DocumentRequestGuard.Serve | app/api/document_limits.py:84-174 | One upload, with others coming and going before each message: refused without a trace, or admitted, handed exactly the messages within the limit, and always counted out |

## Left out

- SQLite, SQL text, schemas and connections: each locked repository call is one atomic step.
- Time is a real or integer number passed to each call; ISO timestamps are compared as times. uuid4 values are numbers, and a fresh one is assumed unused.
- Hashes are injective functions up to key order; the digests and the canonical JSON text are not computed.
- Text is ASCII: Unicode case folding and blanks are not modelled. `int()`, `float()`, `dict()` and `str()` on odd values, and `fromisoformat`, are parameters of the model; NaN, infinities and the digit limit of `int()` are not modelled.
- ContextRoundTrip.ReadFailsIff: exact for finite numbers only; on an infinity or NaN `int()` raises as well.
- Interference comes as sequences of other actors' steps, given to a method for each point where it waits; scheduling inside one repository call and task cancellation are not modelled.
- Entities, turns and jobs are values inside sequences, so aliasing between Python objects is not modelled.
- ActionExecution.AtMostOnce: rests on tools that report "no effect" only when there was none; the code cannot check that.
- Request context, receipt selection (`_receipt_ref`) and the local task workspace binding (`_local_task_workspace_binding`) of the approved-action service: their results are inputs of the model.
- The review and job repositories beyond the transitions that execution and backfill use: audit columns, listing filters, progress fields and total deadlines.
- Manifest and payload fields that are not text where the code expects text are read as empty text.
- Entries of `record_entities` that are not dictionaries, which it skips.
- A checkpoint payload longer than 65536 characters, which the job table refuses, and jobs beyond the first 1000 that the status command lists.
- The payload checks of `run_once` for jobs that the script itself did not write, and its version field.
- The agent loop's plan materialization, context budget, candidate scores and event hook; the scoring among candidates is an arbitrary choice that never yields "complete", as the planner's candidate list never contains it.
- The evaluation note that the loop attaches to the latest result, which may be an earlier step's when a decision carries no text.
- Host, transport and cookie handling of the upload guard; a principal's bucket is an input.
- Operator sessions, signatures, HTTP and provider clients, configuration and wiring.
