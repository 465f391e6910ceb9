# A verified model of an agent controller and its browser extension

The controller runs discussions and audits between coding agents, one of them reached through a browser
extension, and writes a diagnostic report that several processes share. This project models the parts of it whose
correctness is hard to see from the code, and proves properties of them for all inputs, runs and interleavings.
Check everything with `dafny verify dfyconfig.toml`.

| modules | what they model |
|---|---|
| `DiagnosticReport`, `WriterLock`, `WriterLockSafety`, `WriterLockTheorems`, `WriterLockRecovery`, `WriterLockProgress` | The diagnostic report and its writer: any number of processes, an exclusive-create lock file, a recovery guard published by atomic rename, and death or failure at any filesystem operation. |
| `ExtensionState`, `DeliveryOwnership`, `DeliveryBinding`, `TurnGuard`, `DeliveryProtocol`, `DeliverySafety`, `DeliveryTargets`, `DeliveryRuns`, `DeliveryDispatch`, `DeliverySteps` | The extension's persisted delivery state, the store's mutations, the turn gate, and the command handlers interleaved at every await, with worker restarts. |
| `CodeReview`, `ReviewRules`, `ReviewAggregation`, `ReviewAggregates`, `ReviewOutcome`, `ReviewAggregationTheorems`, `ReviewJoin`, `ReviewWithdrawn`, `AuditManifest`, `AuditBinding` | Validating and evaluating review reports, turning several reviewers' assertions into one report, and the manifests that bind an audit to its inputs. |
| `CanonicalJson`, `CanonicalForm`, `ShortestText`, `JsonParser`, `JsonGraph`, `PacketEnvelope`, `PacketRoundTrip`, `PacketReading`, `CommonMark`, `CommonMarkFraming` | Canonical JSON, a JSON parser, serialization of shared and cyclic objects, the parser of the last controller packet in free text, and the fence rules of CommonMark it is compared with. |
| `RunMachine`, `RunOperations`, `RunAlternation`, `Consensus`, `ConsensusRules` | The discussion run state machine, what each operation accepts and leaves, who answers after whom, and consensus detection. |
| `Common`, `Ordering` | Result types and sorting. |

## How the system is represented

- SHA-256 is injective: a digest is the value that was hashed. Random UUIDs are fresh values. `localeCompare` is any
  total order, and the order of keys is the order of UTF-16 code units.
- A thrown error is the `Err` of a result. Time stamps, log events and error messages are left out; error codes are
  kept where callers depend on them.
- The diagnostic writer is a state machine over atomic filesystem operations, because its claims are about
  interleavings; one step is one operation or one liveness test by one process. Liveness tests are exact. An
  observation takes several steps, so everything it saw may be stale when it is used.
- The store of the extension is a class whose methods are proved against functions on states; the command handlers
  are steps that use those functions. Tabs, pages and the controller decide each step's outcome freely, and writes
  that do not name a delivery may happen at any moment, as tab events make them.
- Provider URL parsing is an abstract registry of functions.
- Text is a sequence of UTF-16 code units, numbers are safe integers and minus zero.
- Reviewer-facing shapes (extra properties, wrong types) are settled by the types.

## Findings

- A crash between creating the writer's lock and writing its owner leaves a lock that is never reclaimed. A process
  that fails to release its recovery guard finds its own live marker there and is busy for as long as it lives, and so
  is everybody else behind it. A dead process's lock can be acquired by an idle process exactly when neither has
  happened: the owner record is complete and the guard is not the process's own
  (`WriterLockRecovery.TakenOverIffOwnerWritten`).
- An acknowledgement receipt does not imply a dispatch: a failure between reserving and dispatching leaves one, and so
  does a restart there that is followed by an acknowledgement (`DeliveryRuns.UnsentLeavesReceipt`,
  `DeliveryRuns.LostLeavesReceipt`). What is settled was dispatched exactly if it was before it was settled
  (`DeliverySafety.SettledDispatchedIff`).
- Normalizing the extension state twice can differ from normalizing it once, exactly when the stored provider
  contradicts the stored URL (`ExtensionState.NormalizeIsIdempotent`).
- An explicit rebind has no guard against moving an unresolved delivery onto another session's conversation
  (`DeliveryRuns.ExplicitRebindCollides`); preparing a session has one. Conversations stay distinct exactly on the runs
  without such a bind or promotion (`DeliveryTargets.DistinctIffNoCollision`).
- An update that moves the binding to another provider's URL returns a state that the next read does not return
  (`DeliveryOwnership.UpdateReadsBack`).
- A WITHDRAWN answer on a required finding makes the aggregate REWORK even when every reviewer alone would pass
  (`ReviewJoin.AggregationIsAJoin`, `ReviewWithdrawn.WithdrawalCanOutvote`).
- Upgrading a finding to required invalidates the audit's own manifest (`AuditManifest.EvaluationKeepsManifest`).
- The merge of diagnostic incidents cuts its list before looking up, so the oldest of 32 restarts at one.
- The state machine checks a queued turn's named source against its target only: the next response alternates exactly
  when the caller names the last stored actor (`RunAlternation.AlternatesIffNamed`).
- The code's fences are not those of CommonMark 0.31.2 in two families of texts: a backtick fence with a backtick in
  its info string opens one in the code only (section 4.5), and a carriage return alone ends a line in the standard
  only (section 2.1). `CommonMark.FencesAgreeIff` says for every text whether the two agree; the model of the parser
  follows the code, and `CommonMarkFraming` says when its result is the standard's.

## Model

| member | source | states |
|---|---|---|
| WriterLockTheorems.MutualExclusion | src/diagnostics/report-store.js:229-245 | In every interleaving of any number of processes, with a crash or a failed operation anywhere, at most one live process holds the lock, and the lock file then exists and is the one it created. |
| WriterLockTheorems.LiveLockIsUntouched | src/diagnostics/report-store.js:180-192 | No step of another process, a reclaimer acting on any stale observation included, removes, replaces or rewrites a lock file whose creator is alive. |
| WriterLockTheorems.GuardExclusive | src/diagnostics/report-store.js:135-167 | At most one live process holds the published recovery guard, and the guard directory then contains that process's own marker. |
| WriterLockTheorems.StaleReaperIsHarmless | src/diagnostics/report-store.js:86-113 | While a live process holds the guard, no step of any other process, however late its EMPTY or DEAD observation, changes the guard. |
| WriterLockTheorems.NoLostUpdate | src/diagnostics/report-store.js:246-271 | In every reachable state the report has a section exactly if some commit set it, with the record of the last such commit, and its incidents are the merge of all committed ones in order; commits are in lock-acquisition order, every call commits at most once despite retries, and every call that reported success is among them. |
| WriterLockTheorems.RetriedCallsAreUncommitted | src/diagnostics/report-store.js:306-319 | A busy attempt, the only kind that is retried, has not committed. |
| WriterLockTheorems.CommitsAreAtomic | src/diagnostics/report-store.js:250-270 | A step either leaves the report and its history alone or, for the update of a live process's call, sets its section or merges its incident and keeps every other section and the rest as they were. |
| WriterLockProgress.UndisturbedCallSucceeds | src/diagnostics/report-store.js:208-292 | From every reachable state with no lock, or the complete lock of a dead process, and no guard that a live process holds, a call that nothing disturbs ends within 37 steps with exactly its own update committed, reported as a success, and the lock free. |
| WriterLockProgress.HolderSucceeds | src/diagnostics/report-store.js:246-281 | A process that has just created the lock and is not disturbed commits its update and gives the lock back in nine steps. |
| WriterLockProgress.CommitsWereBegun | src/diagnostics/report-store.js:294-319 | Over every run, a commit of some call carries the update with which that process began that very call. |
| WriterLockProgress.PicksLeftovers | src/diagnostics/report-store.js:115-129 | A preparation is removed exactly if the process itself abandoned it or its owner is dead. |
| WriterLockProgress.RemovesLeftover | src/diagnostics/report-store.js:129-133 | It is then gone and forgotten, and no other preparation is touched. |
| DiagnosticReport.FoldedSections | src/diagnostics/report-store.js:250-255 | After any list of updates the report has exactly the sections that some update set. |
| DiagnosticReport.FoldedRecord | src/diagnostics/report-store.js:250-255 | Each has the record of the last update that set it, whatever was written to other sections since. |
| DiagnosticReport.FoldedIncidents | src/diagnostics/report-store.js:254 | The incidents are the merge of all incidents in their order. |
| WriterLockRecovery.TakenOverIffOwnerWritten | src/diagnostics/report-store.js:34-48 | Whatever the recovery guard holds, an idle process has a run in which it acquires a dead process's lock exactly when the owner record had been completely written and the guard is not one that it left behind itself. |
| WriterLockRecovery.TakesOverAlone | src/diagnostics/report-store.js:86-113 | Behind a missing, empty or dead-owned guard, reaping it included, it needs nobody else and at most 27 steps. |
| WriterLockRecovery.HeldGuardMakesBusy | src/diagnostics/report-store.js:100-113 | While another live process holds the guard an attempt ends busy, with lock and guard unchanged. |
| WriterLockRecovery.LiveMarkerStays | src/diagnostics/report-store.js:86-99 | No other process changes the guard that contains a live process's marker, whether it is still recovering or left it behind. |
| WriterLockRecovery.LeftoverBlocksItsOwner | src/diagnostics/report-store.js:196-204 | A process whose release of the guard failed never holds the lock again as long as it lives, and its marker stays, on every continuation. |
| WriterLockRecovery.LeftoverBlocksEverybody | src/diagnostics/report-store.js:196-204 | Behind such a guard a dead process's lock is reclaimed by nobody and the report stays as it is, until the process that left the guard dies. |
| WriterLockRecovery.FailedReleaseCanBlock | src/diagnostics/report-store.js:180-204 | That state is reached: a process can stand idle before a complete dead lock that it can never acquire. |
| WriterLockRecovery.WedgedForever | src/diagnostics/report-store.js:235-244 | A dead process's lock without a complete owner record stays, and the report never changes again, on every continuation. |
| WriterLockRecovery.CrashCanWedge | src/diagnostics/report-store.js:229-248 | Such a lock is reachable: a crash between creating the lock and writing its owner. |
| WriterLockTheorems.StepKeepsInv | src/diagnostics/report-store.js:208-292 | Every step of every process and every crash keeps the protocol invariant: files and markers name their true owners, at most one holder, a reclaimer's target is dead, history and report agree. |
| WriterLockTheorems.ReachableInv | src/diagnostics/report-store.js:208-292 | The invariant holds after every sequence of events. |
| WriterLockSafety.ReapMarkerShared | src/diagnostics/report-store.js:86-99 | Removing the marker of any dead owner from the guard, however stale the sight of it, disturbs no live process. |
| WriterLockSafety.RemoveEmptyGuardShared | src/diagnostics/report-store.js:91-98 | The nonrecursive removal of the guard directory disturbs no live process. |
| DiagnosticReport.MergeDiagnosticIncident | src/diagnostics/diagnostic-schema.js:64-71 | The in-place merge returns the specified list: the last 31 entries with the match counted up to the cap, or the new incident appended. |
| DiagnosticReport.FingerprintIdentifies | src/diagnostics/diagnostic-schema.js:63 | Fingerprints are equal exactly when the six identifying fields are, if the fields that are joined contain no colon. |
| DiagnosticReport.MergeCounts | src/diagnostics/diagnostic-schema.js:65-70 | One merge raises the incoming fingerprint's count by one, up to the cap, keeps every other count of the last 31 entries and forgets what was before them; fingerprints stay distinct. |
| DiagnosticReport.CountsAreSound | src/diagnostics/diagnostic-schema.js:64-71 | After any history an entry never counts more occurrences than there were. |
| DiagnosticReport.CountsAreExact | src/diagnostics/diagnostic-schema.js:64-71 | With at most 31 different fingerprints every count is exact, up to the cap of one million. |
| DiagnosticReport.OldestOfFullListRestarts | src/diagnostics/diagnostic-schema.js:66-69 | On a full list of 32 the oldest entry is cut before the lookup, so its next occurrence restarts at one. |
| DiagnosticReport.ListTellsHistory | src/diagnostics/diagnostic-schema.js:64-71 | Over any history, however many fingerprints occur, the list is in the order its entries were opened; each entry shows the incident that opened it and its time, the time of the last occurrence, and the number of occurrences since it was opened, up to the cap. |
| DiagnosticReport.LastIsListed | src/diagnostics/diagnostic-schema.js:65-70 | The last incident is always listed. |
| ExtensionState.NormalizeIsIdempotent | extension/runtime/storage.js:98-155 | Normalizing twice equals normalizing once exactly when the stored provider does not contradict the provider of the stored URL; a third pass never changes anything. |
| ExtensionState.SecondPass | extension/runtime/storage.js:98-155 | Only the provider can change in a second pass. |
| DeliveryBinding.ReadTells | extension/runtime/storage.js:42-155 | What a read returns of any stored state, field by field: texts, indices, parked slots, the exact remembered target, the inferred provider, and BOUND or ROOT_READY only with a complete binding that supports it, NEEDS_REBIND otherwise. |
| DeliveryOwnership.UpdateKeepsRest | extension/runtime/storage.js:179-194 | An update keeps every field the patch does not name, the set of unresolved deliveries unless it names the delivery, the session, the parked slots and the receipt; an unnamed status can only fall to NEEDS_REBIND. |
| DeliveryOwnership.UpdateReadsBack | extension/runtime/storage.js:179-194 | What an update writes and returns is what the next read returns, exactly unless it moves the binding to another provider's URL. |
| DeliveryBinding.UpdateTells | extension/runtime/storage.js:186-192 | Every field the patch names has what it names, as a read keeps it; every other field has what it had. |
| DeliveryBinding.UpdateIfRefuses | extension/runtime/storage.js:218-231 | A conditional update is refused exactly if some field differs from what was expected. |
| ExtensionState.ExtensionStateStore.UpdateIf | extension/runtime/storage.js:218-232 | Writes only if every expected field still has its expected value; otherwise nothing changes. |
| ExtensionState.ExtensionStateStore.ReserveDelivery | extension/runtime/storage.js:195-217 | Reserves exactly when the id is nonblank, no parked delivery has the same tab or URL and none is current; otherwise the matching error and no change. |
| DeliveryBinding.ReserveTells | extension/runtime/storage.js:213 | A reservation adds the delivery, forgets the completed response and changes nothing else. |
| DeliveryBinding.ReserveRefuses | extension/runtime/storage.js:195-212 | It is refused exactly for a blank id, a tab or conversation some other unresolved delivery has, or a current delivery. |
| ExtensionState.ExtensionStateStore.BindSession | extension/runtime/storage.js:233-272 | Parks the session that is left, restores the one that is entered, and refuses another run or another conversation for an unresolved delivery. |
| DeliveryBinding.BindTells | extension/runtime/storage.js:257-270 | After an accepted bind the state that is written and the next read have the session, the binding and the status that were given (NEEDS_REBIND if the binding does not support it), the error and the target that were given or else the old ones, and both receipts. |
| DeliveryBinding.BindRefuses | extension/runtime/storage.js:233-256 | A bind is refused exactly without a session or run, for another run while the active session's delivery is unresolved, and for another run or conversation of a parked delivery. |
| ExtensionState.ExtensionStateStore.SelectDeliveryScope | extension/runtime/storage.js:273-285 | Swaps the active slot with exactly the named parked delivery. |
| DeliveryBinding.SelectTells | extension/runtime/storage.js:277-283 | Selecting makes the parked slot the active one, parks the one that was active if it is unresolved, and asks for inspection. |
| ExtensionState.ExtensionStateStore.ClearDelivery | extension/runtime/storage.js:286-311 | Clears exactly the current delivery and leaves its receipt; a repeated acknowledgement on the same binding changes nothing; anything else is refused. |
| DeliveryBinding.ClearTells | extension/runtime/storage.js:304-308 | An acknowledgement removes the delivery, leaves its receipt and changes nothing else. |
| DeliveryBinding.ClearRefuses | extension/runtime/storage.js:286-305 | It is accepted exactly if it names the current delivery, and its session if it names one, or repeats the last receipt on the same binding while nothing is unresolved. |
| DeliveryOwnership.BindConserves | extension/runtime/storage.js:242-270 | A bind keeps the set of unresolved (session, delivery) pairs exactly when the current delivery has a session, and keeps the active session apart from the parked ones. |
| DeliveryOwnership.SelectConserves | extension/runtime/storage.js:273-284 | The same for selecting a parked delivery. |
| DeliveryOwnership.StepLands | extension/runtime/storage.js:179-311 | Every store mutation touches at most the slot that is left and the slot that is entered. |
| DeliveryOwnership.StaysAway | extension/runtime/storage.js:242-285 | A parked slot is unchanged by any run of mutations in which its session does not become active. |
| DeliveryOwnership.LeaveAndReturn | extension/runtime/storage.js:242-285 | Leaving a session with an unresolved delivery, doing anything with other sessions and coming back restores delivery, completed response and observed ids exactly; selecting restores the binding too. |
| DeliveryOwnership.ReturnNeedsSameOwner | extension/runtime/storage.js:252-256 | Coming back by binding succeeds exactly with the run and conversation that were left. |
| DeliveryOwnership.ClearTwice | extension/runtime/storage.js:286-311 | An acknowledgement can be repeated: the second is accepted and changes nothing. |
| DeliveryOwnership.ReserveSeparates | extension/runtime/storage.js:200-205 | A reservation keeps the URLs of unresolved deliveries nonnull and pairwise different exactly when the current URL is nonnull. |
| DeliveryOwnership.BindSeparates | extension/runtime/storage.js:242-270 | A bind that is accepted keeps them so exactly if the delivery of the session that is bound, if it has one, comes to stand on a conversation no other session's delivery has; parked slots without a run id are included. |
| DeliveryOwnership.SelectSeparates | extension/runtime/storage.js:273-284 | Selecting keeps them so. |
| DeliveryOwnership.PreparedBindSeparates | extension/background.js:473-503 | Under the guard of prepareBoundSession a bind keeps them so exactly unless it takes a parked delivery without a run id, which the store does not check, to a conversation that is not free. |
| DeliveryRuns.ExplicitRebindCollides | extension/background.js:566-617 | A concrete history from any fresh installation: two jobs are reserved, and an explicit rebind, which has no such guard, brings both unresolved deliveries onto one conversation. |
| TurnGuard.ActiveTurnGate.constructor | extension/runtime/turn-guard.js:32-33 | A new gate is free. |
| TurnGuard.ActiveTurnGate.Reserve | extension/runtime/turn-guard.js:42-53 | Succeeds exactly for a nonblank id on a free gate, with a fresh reservation; otherwise names the holder and changes nothing. |
| TurnGuard.ActiveTurnGate.Release | extension/runtime/turn-guard.js:62-66 | Only the very reservation that is active releases the gate; a stale one for the same request does not. |
| TurnGuard.AssertMeansRecapture | extension/runtime/turn-guard.js:70-175 | A frozen turn is accepted on a later state exactly when capturing it there would give the same turn. |
| TurnGuard.CapturesExactly | extension/runtime/turn-guard.js:70-112 | A turn is captured exactly on a bound state whose every identifier is there, for the current delivery and the bound run, and holds these very identifiers. |
| DeliverySafety.DispatchedAtMostOnceAndKept | extension/background.js:681-761 | In every interleaving of prompt, prepare, acknowledgement, discard, selection and stray updates with worker restarts, no reservation is dispatched twice, and a dispatched delivery stays current or parked under its session until it is acknowledged or discarded. |
| DeliverySafety.DispatchOwnsItsSession | extension/background.js:718-740 | When a prompt is dispatched its session owns no other unsettled reservation. |
| DeliveryDispatch.PromptIsDispatched | extension/background.js:681-740 | From any fresh installation, on an existing conversation or a new one, preparing a session on a complete page and prompting it dispatches its one reservation. |
| DeliveryDispatch.DeliveryCompletes | extension/background.js:681-815 | And the whole delivery: reserved, dispatched once, its response kept, acknowledged with its receipt, and nothing left unresolved. |
| DeliverySteps.PromptIsFor | extension/background.js:695-710 | A prompt goes on exactly if it has a message id, names the bound run and, if it names a session, the bound one. |
| DeliverySteps.TargetIsBound | extension/runtime/current-target.js:188-202 | The prompt binds its session to the target with the run it was bound to, the status the target calls for and no error. |
| DeliverySteps.ChecksExactly | extension/background.js:724-740 | After the reservation the prompt is dispatched exactly on a start page or with a turn frozen to every identifier, in a known document and the main frame; otherwise the reservation is cleared. |
| DeliverySteps.PreparesUnlessOwned | extension/background.js:473-503 | Preparing stops exactly if the session's own unresolved delivery of that run has another conversation than the one asked for; a new conversation is another one, and an explicit rebind never stops. |
| DeliverySteps.StartsExactly | extension/background.js:681-692 | A command starts exactly while no other is running. |
| DeliverySteps.DiscardRechecksOwner | extension/runtime/delivery-discard.js:52-59 | A discard is made exactly if delivery, session, run, conversation, tab, document, frame and parked deliveries are still those it was allowed for and no response has come. |
| DeliverySteps.AddressBecomesKnown | extension/background.js:770-787 | The address of a new conversation is written exactly for a delivery that was sent to a start page and still has its delivery id, session, run and tab; the delivery is kept either way. |
| DeliverySteps.NewConversationCompletes | extension/background.js:681-815 | The whole delivery on a new conversation: sent to the start page, addressed, completed, acknowledged, with a receipt that names the new address. |
| DeliveryDispatch.DiscardTells | extension/runtime/delivery-discard.js:14-60 | A discard that nothing disturbs removes exactly the delivery it names, leaves the receipt, the reason and NEEDS_REBIND, and does nothing if it does not name the delivery and its owner. |
| DeliveryDispatch.DiscardTwice | extension/runtime/delivery-discard.js:33-36 | Asked again, it changes nothing. |
| DeliverySafety.OnlyCheckDispatches | extension/background.js:736-740 | An event dispatches exactly when it is the going-on of a checked prompt with a turn captured and an exact document, and then that prompt's own reservation; every other event dispatches nothing. |
| DeliverySafety.DispatchedIff | extension/background.js:718-740 | At any moment of any history a reservation counts as dispatched exactly when such an event has happened for it. |
| DeliverySafety.SettledDispatchedIff | extension/runtime/delivery-ack.js:3-28 | A reservation settled by an acknowledgement, a discard or a failure has been dispatched, then and forever, exactly if it had been dispatched before it was settled. |
| DeliverySafety.ReceiptWithoutDispatch | extension/background.js:827-829 | A prompt that fails between reserving and dispatching leaves an acknowledgement receipt for a delivery that is never dispatched. |
| DeliveryRuns.UnsentLeavesReceipt | extension/background.js:827-829 | A concrete history from any fresh installation ends in that. |
| DeliveryRuns.LostLeavesReceipt | extension/background.js:712-740 | So does one in which the worker restarts between reservation and dispatch and the delivery is then acknowledged. |
| DeliverySafety.ClearResets | extension/runtime/delivery-ack.js:3-28 | An acknowledgement that is accepted for an unresolved delivery clears exactly that one, the active session's own; any other changes no session's delivery. |
| DeliverySafety.DiscardResets | extension/runtime/delivery-discard.js:52-59 | A discard that is accepted clears the active session's delivery and no other session's. |
| DeliverySafety.BindSame | extension/background.js:504-565 | Binding a session, whether it succeeds or fails, leaves every session's unresolved delivery as it was. |
| DeliverySafety.HappenKeeps | extension/background.js:681-849 | Every event keeps the bookkeeping: unresolved deliveries and open reservations correspond one to one, and nothing is dispatched twice. |
| DeliveryTargets.DistinctIffNoCollision | extension/background.js:473-617 | Over every interleaving of the handlers and every restart, unresolved deliveries have nonnull, pairwise different conversations at every moment exactly if no event of the run puts a delivery on a conversation that is null or another delivery's, by binding or by promoting a new conversation. |
| DeliveryTargets.GuardedEvent | extension/background.js:473-503 | The guard of a prepared session and the refusals of the store exclude such an event, unless it follows an explicit rebind or a new conversation gets its address in place. |
| DeliveryTargets.TargetsStayDistinct | extension/background.js:473-503 | So on runs without those two, unresolved deliveries always have pairwise different conversations. |
| DeliveryTargets.HappenTargets | extension/runtime/storage.js:195-285 | One event: conversations stay pairwise different exactly unless the event is such a collision, explicit rebinds and promotions included. |
| CodeReview.ValidateAuditResponse | src/domain/code-review.js:58-104 | Accepts exactly the reports that satisfy every rule; an accepted SATISFIED cites, for every check of its requirement, an execution with the expected exit code after which no execution of that check follows. |
| ReviewRules.AcceptsExactly | src/domain/code-review.js:58-104 | The rules said of requirements, records and findings: the report answers this very request, its assessments are about exactly the requirements, each once, and every part cites different, usable records of the candidate. |
| ReviewRules.SupportsExactly | src/domain/code-review.js:26-50 | SATISFIED is supported exactly if every required kind is cited from a record no agent made, executions and artifacts come from checks, and every check passes. |
| ReviewRules.PassesExactly | src/domain/code-review.js:31-48 | A check passes exactly if the report cites its latest execution on the candidate, the controller made it, it ended cleanly with the expected exit code, and all its result files are cited. |
| ReviewRules.SatisfiedCitesTheLatest | src/domain/code-review.js:31-39 | So an earlier passing run before a failed one supports nothing. |
| CodeReview.EvaluateCodeReview | src/domain/code-review.js:105-133 | Fails exactly on an invalid report, and otherwise returns the specified decision and findings. |
| ReviewOutcome.EvaluationDecides | src/domain/code-review.js:128-132 | The decision said of the recorded findings: REWORK if a required requirement is unsatisfied or a required finding open or only submitted, else HOLD if one is undetermined, a required finding was resolved on another candidate or a question is open, else PASS. |
| CodeReview.DecisionsPointwise | src/domain/code-review.js:110-115 | The loop over decisions changes exactly the first finding of each decided id, by exactly its own decision, and no other finding. |
| ReviewOutcome.OldFindingTells | src/domain/code-review.js:110-127 | Each finding that was there: a decision is recorded in the first finding with its id, with status, verifying candidate and one entry of history; it becomes required if a required requirement demands it; nothing else changes. |
| ReviewOutcome.NewFindingTells | src/domain/code-review.js:116-127 | Each new finding is recorded open, detected on the candidate, unverified, with its problem as its first entry of history. |
| CodeReview.FindingsOnlyGrow | src/domain/code-review.js:109-125 | Evaluation drops no finding, only appends to histories, never downgrades `required`, upgrades violations of required requirements, and appends the new findings open. |
| CodeReview.RecordedStaysValid | src/domain/code-review.js:58-104 | A report stays valid against the findings its own evaluation recorded. |
| CodeReview.ReevaluationIsStable | scripts/certify.js:182-187 | Evaluating it again on those findings gives the same decision. |
| ReviewAggregation.ValidateReviewAssertions | src/domain/review-coordination.js:29-76 | Accepts exactly packets bound to the request with one assertion a requirement and one answer an active finding; the comparison of sorted id lists is a comparison of multisets. |
| ReviewOutcome.AnswersExactly | src/domain/review-coordination.js:29-66 | The same said of the packet: one assertion a requirement and one answer an active finding, and nothing that has to be said is empty. |
| ReviewAggregates.ReportTells | src/domain/review-coordination.js:68-92 | A report made from assertions has each assertion's requirement, verdict and evidence, each answer's finding, status and evidence, and the new findings, unchanged and in order. |
| ReviewAggregation.AggregateReviewReports | src/domain/review-coordination.js:121-162 | The loops and the insertion-ordered Map compute the specified aggregate, or fail with fewer than two reports or a missing assessment. |
| ReviewAggregation.MergeNews | src/domain/review-coordination.js:145-156 | The Map keyed by requirement, problem and criteria merges new findings into their first occurrence, in order. |
| ReviewAggregates.AssessmentTells | src/domain/review-coordination.js:123-133 | An aggregate assesses each requirement in order: UNSATISFIED if some report says so, else UNDETERMINED if some says so, else SATISFIED; it cites exactly what the reports cite about it, each once, in order of first occurrence. |
| ReviewAggregates.MissingTells | src/domain/review-coordination.js:129-132 | What is missing is what the undetermined reports say, in order, one line each. |
| ReviewAggregates.MissingIsTold | src/domain/review-coordination.js:129-132 | An undetermined assessment says exactly that, or that evidence is incomplete if no report says anything. |
| ReviewAggregates.DecisionTells | src/domain/review-coordination.js:134-144 | It decides each active finding in order: RESOLVED if every report resolves it, else OPEN, citing exactly what the reports cite about it. |
| ReviewAggregates.AddNewTells | src/domain/review-coordination.js:145-156 | One more new finding is merged into the first that says the same, in its place, or appended. |
| ReviewAggregates.MergedNewTells | src/domain/review-coordination.js:151-154 | Two that say the same become the first, with the evidence of both in order of first occurrence, and required if one is. |
| ReviewAggregates.ActiveInOrder | src/domain/review-coordination.js:134 | The active findings are all that are not withdrawn, in their order. |
| ReviewAggregates.AggregateTells | src/domain/review-coordination.js:121-161 | An aggregate exists exactly for two reports or more that all assess every requirement, and answers the request of the context. |
| ReviewAggregationTheorems.AggregationPreservesValidity | src/orchestration/audit-round.js:715-733 | Two or more reports made from valid assertions and valid under their own request ids always aggregate, and the restamped aggregate is again a valid report that decides exactly the active findings. |
| ReviewAggregationTheorems.AcceptedIsReviewed | src/domain/review-coordination.js:78-96 | Reports made from valid assertions under their own request ids are, restamped, valid for the aggregate's context and decide exactly the active findings. |
| ReviewAggregationTheorems.MoreRefsSupport | src/domain/code-review.js:26-50 | Citing more evidence never breaks the support of a satisfied requirement. |
| ReviewAggregationTheorems.EveryRequirementAssessed | src/domain/code-review.js:66-73 | A valid report assesses every requirement, and requirement ids are distinct. |
| ReviewAggregationTheorems.NewsAreMerged | src/domain/review-coordination.js:145-156 | Merging new findings loses none, repeats no key, and each merged finding has exactly the evidence of all findings with its key and is required if one of them is. |
| ReviewAggregationTheorems.DecisionGathersEvidence | src/domain/review-coordination.js:134-144 | The merged decision about an active finding cites exactly the evidence that some reviewer cites about it. |
| ReviewJoin.DecisionIs | src/domain/code-review.js:105-133 | The decision in terms of the report alone: which verdicts, answers and new findings make it REWORK or HOLD. |
| ReviewJoin.AggregationIsAJoin | src/domain/review-coordination.js:121-162 | Evaluating the aggregate is never less severe than evaluating any report, and is exactly the most severe unless some reviewer answers WITHDRAWN on a required finding and no report alone is REWORK. |
| ReviewWithdrawn.WithdrawalCanOutvote | src/domain/review-coordination.js:134-144 | Two concrete reports that both pass, one withdrawing a required finding, have an aggregate that asks for rework. |
| ReviewJoin.OrderDoesNotMatter | src/domain/review-coordination.js:121-162 | Order and repetition of reports change neither the decision, nor any merged verdict or finding decision, nor the set of merged new findings, nor the sets of evidence behind them. |
| ReviewJoin.DifferentDecisionsDisagree | src/domain/review-coordination.js:98-119 | Reports that evaluate differently always have different fingerprints. |
| AuditManifest.FreshManifestMatches | src/domain/audit-manifest.js:58-119 | A manifest just created matches its own run exactly when no two findings share an id but differ in what the manifest keeps. |
| AuditManifest.ManifestDetermines | src/domain/audit-manifest.js:58-85 | Two runs get the same manifest exactly when they agree, up to order, on everything it binds. |
| AuditManifest.ManifestBinds | src/domain/audit-manifest.js:87-119 | A manifest of one run is accepted for another exactly when identity, objective, requirements, candidate, the candidate's evidence, decisions and verifications agree up to order and every prior finding is still there unchanged. |
| AuditBinding.BindsExactly | src/domain/audit-manifest.js:87-119 | The same said of the runs themselves: each record of the candidate, each decision about it and each verification is there equally often, and every finding is still there with its problem, criteria, requirement, required flag and candidate. |
| AuditBinding.MadeExactly | src/domain/audit-manifest.js:58-85 | A manifest can be made exactly if every bound record and every finding has its identifying texts. |
| AuditBinding.AlteredMatchesNothing | src/domain/audit-manifest.js:87-90 | A manifest whose content is not the one that was hashed matches no run. |
| AuditManifest.EvaluationKeepsManifest | src/domain/audit-manifest.js:115-119 | A run's manifest survives an evaluation of a report exactly when no finding it already had is upgraded to required. |
| CanonicalJson.SerializeIsPrint | src/domain/canonical-json.js:73-82 | Sorting the printed entries is printing the sorted members, at every depth. |
| CanonicalForm.KeyOrderIs | src/domain/canonical-json.js:73-74 | Keys are compared by code units: one is a prefix of the other, or the unit at the first difference decides. |
| CanonicalForm.KeysAscend | src/domain/canonical-json.js:73-82 | What is serialized is the same value with, in every object at every depth, each key strictly before every later one in that order, and a parser reads the members in that order. |
| CanonicalForm.StringsAreWritten | src/domain/canonical-json.js:16-18 | Strings are written as section 3.2.2.2 of RFC 8785 has it: surrogate pairs as they are, the seven short escapes, lower-case hexadecimal for other controls and lone surrogates, everything else as it is. |
| CanonicalForm.TokensSpelled | src/domain/canonical-json.js:12-24 | The words, the digits and the separators are those of JSON. |
| CanonicalForm.ArraySpelled | src/domain/canonical-json.js:48-69 | Nothing but a comma is between the items of an array. |
| CanonicalForm.ObjectSpelled | src/domain/canonical-json.js:71-82 | Nothing but a colon is between a key and its value. |
| CanonicalForm.ReadsBetweenBlanks | src/domain/canonical-json.js:88-90 | Canonical text between blanks is read as the canonical value. |
| ShortestText.CanonicalIsShortest | src/domain/canonical-json.js:88-90 | No text that parses to the same value is shorter than the canonical one, if no surrogate stands alone: no blank, escape or digit could be left out. |
| ShortestText.ParsedIsWellFormed | src/domain/canonical-json.js:12-86 | What a parser returns is a well-formed value, repeated keys included. |
| JsonParser.ValueRoundTrip | src/domain/canonical-json.js:12-86 | Any printed value, in front of any text that does not continue a number, is read back exactly. |
| JsonParser.StringRoundTrip | src/domain/canonical-json.js:16-18 | Escaped strings, lone surrogates and control characters included, are read back exactly. |
| JsonParser.ParseSerialized | src/domain/canonical-json.js:88-90 | Parsing canonical text gives the value back, with members sorted and -0 as 0. |
| JsonParser.SerializeIdentifies | src/domain/canonical-json.js:88-102 | Two values serialize alike exactly when they are equal up to the order of object members and the sign of zero. |
| JsonParser.SerializeIsAFixpoint | src/domain/canonical-json.js:88-90 | Parsing and serializing again gives the same text. |
| JsonGraph.Serializer.Serialize | src/domain/canonical-json.js:33-85 | On a heap with shared and cyclic objects: throws exactly when there is no tree below the value, otherwise returns that tree's canonical text, and restores the set of ancestors either way. |
| JsonGraph.RefusedIffCyclic | src/domain/canonical-json.js:33-37 | A heap of JSON values is refused exactly when some way down returns to itself; sharing is accepted. |
| JsonGraph.TreeDenotes | src/domain/canonical-json.js:39-82 | What is serialized is what the value on the heap stands for, item by item and field by field in order. |
| JsonGraph.OneDenoted | src/domain/canonical-json.js:39-82 | It stands for one JSON value only. |
| JsonGraph.TreeIsWellFormed | src/domain/canonical-json.js:39-82 | What is accepted is a well-formed JSON value. |
| PacketEnvelope.OutsideMarkdownFence | src/domain/controller-packet-envelope.js:15-34 | The scanning loop decides whether the text before the offset leaves a fence open. |
| PacketEnvelope.RepairsExactlyStray | src/domain/controller-packet-envelope.js:85-94 | The repair before the second parse changes exactly the texts that contain a backslash which begins no JSON escape. |
| PacketEnvelope.FoundIsLast | src/domain/controller-packet-envelope.js:124-130 | The opening found is the last one that stands alone outside fences, or there is none. |
| PacketEnvelope.ParseFinalControllerPacketJsonEnvelope | src/domain/controller-packet-envelope.js:96-160 | The search loops compute the specified envelope or error. |
| PacketReading.ReadsExactly | src/domain/controller-packet-envelope.js:96-160 | A packet is read exactly if the right-trimmed text ends with one of the two closing markers, standalone outside fences, and the last standalone opening marker before it is followed by a line, valid JSON within the depth limit, and the closing line; the body is what is before. |
| PacketReading.RepairsExactly | src/domain/controller-packet-envelope.js:104-107 | Exactly a closing marker indented by one to three spaces and followed by a backslash is repaired. |
| PacketReading.PacketTextExactly | src/domain/controller-packet-envelope.js:139-147 | The packet is what is between the markers without the end of the first line and one end of line at its end. |
| PacketReading.DepthReaches | src/domain/controller-packet-envelope.js:36-68 | The depth is the length of the longest way down. |
| PacketReading.RepairDoubles | src/domain/controller-packet-envelope.js:85-94 | The repair doubles each stray backslash and changes nothing else. |
| PacketReading.MarkersSpelled | src/domain/controller-packet-envelope.js:70-73 | The four markers. |
| PacketRoundTrip.SerializedIsOneLine | src/domain/canonical-json.js:16-18 | Canonical text contains no line break. |
| PacketRoundTrip.FenceCarries | src/domain/controller-packet-envelope.js:15-34 | The fence state after line-ended text and more is the state after both in turn. |
| PacketRoundTrip.FramingRoundTrip | src/domain/controller-packet-envelope.js:96-160 | After any line-ended text, decoy markers, whole packets and Markdown included, a canonical value between markers, with either line ending and any trailing whitespace, is read back with the right-trimmed body if within the depth limit; if the text leaves a fence open the packet is refused. |
| CommonMark.OpenedIsOpening | src/domain/controller-packet-envelope.js:20-23 | The reference: which lines open a fence by section 4.5 of CommonMark 0.31.2. |
| CommonMark.ClosesIsClosing | src/domain/controller-packet-envelope.js:24-31 | The reference: which lines close one; the closing rule of the code is this rule. |
| CommonMark.CodeIsScan | src/domain/controller-packet-envelope.js:17-33 | On the lines of section 2.1 of CommonMark 0.31.2, the scanner ignores what follows a carriage return alone and closes no fence before one. |
| CommonMark.PlainLineAgreement | src/domain/controller-packet-envelope.js:17-33 | On a line without carriage returns the scanner's state becomes the standard's exactly unless a backtick fence with a backtick in its info string would open. |
| CommonMark.LineAgreement | src/domain/controller-packet-envelope.js:17-33 | Exactly on which lines, from any two states, the scanner's state becomes the standard's. |
| CommonMark.FencesAgreeIff | src/domain/controller-packet-envelope.js:15-34 | For every text, the scanner's fence after it is the standard's exactly when every line at which the two part is followed by one at which they meet. |
| CommonMark.AgreeAtEveryLine | src/domain/controller-packet-envelope.js:15-34 | They agree after every line exactly when they never part. |
| CommonMark.TickInfoDiffers | src/domain/controller-packet-envelope.js:20-23 | After a line of three backticks, a letter and a backtick the code sees an open fence and the standard none. |
| CommonMark.LoneCrDiffers | src/domain/controller-packet-envelope.js:18 | After a letter, a carriage return alone and a fence line the standard sees an open fence and the code none. |
| CommonMarkFraming.ResponsesFollowStandard | src/domain/controller-packet-envelope.js:96-160 | Every response on whose lines the two never part is parsed exactly as by the same parser with the standard's fences. |
| CommonMarkFraming.StandardRoundTrip | src/domain/controller-packet-envelope.js:96-160 | The framing round trip under the standard: the framed value is read back exactly if the standard has no fence open after the text before it. |
| CommonMarkFraming.FramingFollowsStandardIff | src/domain/controller-packet-envelope.js:96-160 | The code does with a framed value what the standard has it do exactly when, in the text before it, the two meet after every parting, or both are left with a fence open. |
| CommonMarkFraming.TickInfoRefusesPacket | src/domain/controller-packet-envelope.js:20-23 | After the first diverging text the code refuses a packet that the standard has outside fences. |
| CommonMarkFraming.LoneCrTakesPacket | src/domain/controller-packet-envelope.js:18 | After the second it takes a packet that the standard has inside one. |
| RunMachine.OperationIsValid | src/domain/run-state-machine.js:278-320 | Every operation returns a valid run, unchanged or at the next version, with the same turn limit. |
| RunMachine.FinalValidationRefuses | src/domain/run-state-machine.js:278-320 | The final validation refuses what an operation has made exactly when the version is used up, a gate or a recovery would lack its blocker, or a run without responses would be queued after one. |
| RunMachine.TerminalIsFinal | src/domain/run-state-machine.js:449-749 | A run in a terminal phase is never changed. |
| RunMachine.OperationMoves | src/domain/run-state-machine.js:449-540 | Every change is a move the phase table allows. |
| RunOperations.MovesByTarget | src/domain/run-state-machine.js:45-125 | The phase table read by its targets. |
| RunOperations.TransitionsExactly | src/domain/run-state-machine.js:449-546 | On a valid run of that version a transition succeeds exactly if the table allows it, the actor fits, the blocker is named, cleared or kept as the target needs, and a turn that is started or queued has budget, no pause and the right source; it then changes exactly phase, actor, counter, blocker, version and time. |
| RunOperations.AdoptsExactly | src/domain/run-state-machine.js:607-668 | A recovered response is adopted exactly in recovery from that very operation and with a turn left; it is stored as its actor's, counted, and the recovery is over. |
| RunOperations.TurnLimitExactly | src/domain/run-state-machine.js:718-752 | Below the limit nothing changes; at the limit exactly a run in the consensus check is completed. |
| RunOperations.RepairsExactly | src/domain/run-state-machine.js:553-594 | A repair runs exactly the actor of the stored response again, unpaused, unblocked and within budget. |
| RunOperations.ClaimsExactly | src/domain/run-state-machine.js:596-633 | A claimed turn starts exactly for the actor whose turn is pending, even on a paused run. |
| RunOperations.PausesExactly | src/domain/run-state-machine.js:670-696 | Pausing and resuming fail exactly on a finished run and change only the flag. |
| RunOperations.BlocksExactly | src/domain/run-state-machine.js:698-716 | A blocker changes exactly on an unfinished run where a gate keeps one and a recovery its confirmation. |
| RunOperations.NoBlindOverwrite | src/domain/run-state-machine.js:186-193 | Of two operations that saw the same version the second is refused once the first has changed the run, whatever happens between. |
| RunOperations.HistoryIsCoherent | src/domain/contracts.js:125-179 | Over any history the active actor is the one whose turn runs, gates show what they wait for, finished runs wait for nothing, and the version counts the changes. |
| RunOperations.RefusalsAreTrue | src/domain/run-state-machine.js:186-752 | Every refusal gives a reason that is true of the run and the request. |
| RunMachine.TurnsStartUnblockedAndCount | src/domain/run-state-machine.js:252-276 | A running phase is entered only unblocked and with budget left, on a paused run only by a claimed turn, and the turn count moves exactly when a response is stored. |
| RunMachine.ResumeUndoesPause | src/domain/run-state-machine.js:670-696 | Resuming a paused run restores it but for version and time. |
| RunMachine.ClearUndoesBlocker | src/domain/run-state-machine.js:698-716 | Clearing a blocker that was set restores the run but for version and time. |
| RunMachine.HistoryIsValid | src/domain/contracts.js:125-179 | After any history the run is valid and its turn count is the number of stored responses, never above the limit. |
| RunMachine.PhaseChangesAreBounded | src/domain/run-state-machine.js:45-125 | A run that never visits the gate or recovery changes phase at most 4 * maxTurns + 2 times, repairs included. |
| RunMachine.BoundIsReached | src/domain/run-state-machine.js:45-125 | That bound is reached. |
| RunAlternation.AlternatesIffNamed | src/domain/run-state-machine.js:510-522 | Between two consecutive stored responses with no repair or detour between them exactly one turn is queued, and the second response is the other actor's exactly when the queued turn names the actor of the first. |
| RunAlternation.SourceIsNamed | src/domain/run-state-machine.js:510-522 | The source of a turn that is queued is the one the caller named; an operation that is refused queues nothing. |
| RunAlternation.ActorsAlternate | src/domain/run-state-machine.js:132-145 | Over any history in which every queued turn names the last stored response's actor, no actor answers twice in a row except across a repair or a detour. |
| RunAlternation.FirstIsCodex | src/domain/run-state-machine.js:132-145 | The first response of a new run is Codex's, whatever the caller names, unless a repair or a detour came before it. |
| RunAlternation.MisnamedSourceRepeats | src/domain/run-state-machine.js:510-522 | A history from a new run in which the source of one queued turn is misnamed and one actor answers twice in a row. |
| Consensus.LatestEnvelopeByActor | src/domain/consensus.js:25-48 | Fails exactly if a relevant message lacks its own positive sequence number; otherwise returns each actor's highest-numbered message. |
| Consensus.FindPersistedProposal | src/domain/consensus.js:63-81 | Finds the first proposal of the run with the reference hash and valid hashes, if there is one. |
| Consensus.EvaluateConsensus | src/domain/consensus.js:83-139 | Answers with a proposal exactly when both actors' newest messages accept it, it is persisted for this run and no decision is open. |
| Consensus.ReferenceFixesContent | src/domain/contracts.js:399-451 | Two persisted proposals with one reference hash have the same content. |
| Consensus.ConsensusIsSound | src/domain/consensus.js:83-139 | There is consensus on at most one reference hash, and every persisted proposal with that hash has the agreed text and no open decision. |
| Consensus.EvaluateIffConsensus | src/domain/consensus.js:83-139 | The evaluation, run on lists as the code runs it, answers with a hash exactly when there is consensus on it. |
| ConsensusRules.EvaluatesExactly | src/domain/consensus.js:83-139 | The same said of the stored lists: every counting message has its own number, each actor's newest message is a valid acceptance without objections, and a well-formed decided proposal of the run hashes to what they accept. |
| Consensus.SelectionIgnoresOrder | src/domain/consensus.js:25-48 | Scanning the messages in any order selects the same messages, or fails in every order. |
| Consensus.EvaluationIgnoresOrder | src/domain/consensus.js:63-139 | The evaluation gives the same result for every order of messages and every order or repetition of proposals. |
| Consensus.NewerMessageRevokes | src/domain/consensus.js:25-61 | With a newer message of either actor there is consensus only on what that message accepts; if it is unnumbered, malformed or no acceptance, there is none. |
| Ordering.SortIsCanonical | src/domain/audit-manifest.js:27 | Under a total order of keys that identify elements, two sorted lists are equal exactly when the lists are permutations of each other. |

## Left out

- Windows-only retries (EPERM), fsync, file modes, waits and timeouts of the report store; the size limit and the
  redaction of its records.
- Reuse of process ids and inode numbers, and process ids the writer may not signal (an UNVERIFIED owner).
- Guard directories with foreign or several entries, and lock files with malformed or foreign content: the model has
  only what the writers themselves create.
- The writer's functions are not a class: its state is shared by many processes, and every step is a function on it.
- ExtensionState.ExtensionStateStore.UpdateIf: compares parked slots as maps, where the code compares their JSON text,
  because the two differ only when the same slots are listed in another order.
- ExtensionState.ExtensionStateStore.BindSession: takes a whole binding, as every caller passes one; a patch that
  overwrites delivery fields is not modelled.
- The cleanup of legacy test deliveries, legacy stored keys, configuration and identity fields, and the observation
  time of targets.
- DeliverySafety.DispatchedAtMostOnceAndKept: a reservation, not a delivery id, is dispatched at most once, because
  the store lets a settled id be reserved again.
- The content script's own duplicate detection, the popup, recovery of a conversation by its tabs, and stopping a turn.
- CodeReview.ValidateAuditResponse: covers review reports; evidence requests and the optional score are not modelled.
- Plans, work orders and their hashes: fields copied and compared, nothing that spans functions.
- JsonParser.ParseSerialized: numbers are safe integers, because printing of fractions and exponents is not modelled;
  the parser refuses them.
- JsonParser.SerializeIdentifies: the same.
- JsonParser.SerializeIsAFixpoint: the same.
- CommonMark.FencesAgreeIff: fences at the top level of a document; container blocks, indented code and HTML blocks of
  the standard are not modelled, and the code knows none of them.
- JsonGraph.Serializer.Serialize: sparse arrays, accessors and symbol keys are one kind of value that is not plain,
  and an error carries no path.
- Run outcomes and limits of the run state machine, and the identity fields no operation changes.
- Session records, message and proposal shapes in the contracts.
- Express routes, sockets, dashboard, page selectors, git, databases and child processes.
