# Crash-safe coordination of AscendOP: a verified model

A Dafny 4.11 model of the state machines that let AscendOP lose a process at any moment without
losing or repeating work, with proofs of what they promise over whole runs. `dafny verify
dfyconfig.toml` checks all of it.

- **Gateway** (`GatewayContracts`, `RunJournal`, `GatewayProtocol`, `GatewayRuntime`): one durable
  journal per request and an unreliable transport called between journal writes. `GatewayProtocol`
  is the step system with crashes, two locks and a watchdog that takes none; `GatewayRuntime` is the
  code of submit, status, cancel, resume, acknowledge and wait, whose methods are proved to take
  only protocol steps.
- **Agent actions** (`AgentModel`, `AgentInvariant`, `AgentRuns`, `AgentGuarantees`,
  `AgentOutcomes`, `AgentRepository`, `AgentSelection`): the transactions on actions, attempts, leases,
  iterations and receipts, their invariant and its consequences over all runs, when each is granted
  and what it leaves in every reachable state, the repository that rewrites the rows in place, and
  the round-robin choice of an agent.
- **Promotion** (`SourcePromotion`, `OutputPromotion`): file-by-file promotion of sealed changes under
  interruptions, and the recovery that undoes an obsolete promotion.
- **Case policy** (`CasePolicy`): chains of case revisions that must not lose a protected failure.
- **Interleaved measurement** (`InterleavedMeasurement`): plan validation and the schedule whose
  entries pair up.
- **Outbox and delivery** (`Outbox`, `OutboxRepository`): the leased queue and its delivery loop.
- **Workspace ownership** (`WorkspaceOwnership`) and **evidence operations**
  (`EvidenceOperations`): a compare-and-set head with its intent log, and the claim, route and
  result machine.

Each part has pure functions for its transactions, theorems over arbitrary runs of them, and a class
(or methods) in the imperative form of the code that is proved equal to these functions. Beside these
functions stand lemmas (named `...Exactly` and `...Outcome`) that say, in terms of the rows and files
themselves, when each operation is granted and what it leaves.

## Where the code differs from what one expects

- The publication bound "one plus the retries on demand" needs a transport that never reports a
  rejection looking like a failure before publication: `reconcile_rejection` results are recorded as
  they come (runtime.py:84-95), and such a record can be resumed. `BoundHoldsExactly` gives the exact
  condition, `ForgedRejectionRepublishes` the run.
- The obsolete sweep cancels a requeued action without releasing its lease
  (repository.py:1931-1960), and expiry makes the iteration of any due lease live again
  (repository.py:2588-2592). If its candidate has a new live iteration by then, the unique index on
  iterations aborts every claim and every adoption. `ClaimRejectedExactly` and
  `AdoptRejectedExactly` say that this is the only reason for a rejection, `ExpiryWedge` shows a
  reachable state where it happens for everybody.
- Creating an evidence operation is meant to be idempotent, but the repetition is compared with the
  stored document including its state (repository.py:2715-2719), so it is refused as soon as the
  request left the queue: `CreateRepeatedExactly`, and `CreateAfterClaimRefused` at an input.
- Deferring an evidence operation leaves it claimed with a blank token (repository.py:2966-2971). Until
  the delay is over a blank token routes or defers it, and its latest claimant cannot:
  `OutsiderUsesExactly` says that this is the only such use, `BlankTokenRoutes` shows one.
- Resuming promises to reopen only requests that were never published (runtime.py:38-42). A retry that
  raises a request error records a published request as failed before publication
  (runtime.py:136-148), and so does a rejection of that shape: `RetryMakesPublishedResumable`,
  `RejectionMakesPublishedResumable`. `ResumePromiseExactly` gives the exact condition, and the
  publication bound holds all the same.
- A source promotion copies each file beside its target before it moves the copy into place
  (agent_workspace.py:700-709). A process that dies in between leaves the copy in the origin, where
  every later promotion takes it for a foreign change: `DeathInsideReplacementBlocks`. A promotion can
  be resumed exactly if no death fell inside a replacement (`PromotionIsResumable`), or after the
  leftover is removed (`RemovingLeftoverUnblocks`).

## Model

| member | source | states |
|---|---|---|
| `GatewayContracts.SafeTokenStable` | packages/ascendop_test_gateway/src/ascendop_test_gateway/contracts.py:125-130 | a token that safe_token accepts is accepted again unchanged |
| `GatewayContracts.EventReceiptRoundTrip` | packages/ascendop_test_gateway/src/ascendop_test_gateway/contracts.py:265-277 | a receipt whose event could be computed reads back from its stored form as itself, so the recomputed event is the stored one |
| `GatewayContracts.TransitionsByTarget` | packages/ascendop_test_gateway/src/ascendop_test_gateway/contracts.py:66-122 | the transition table, read by the state that is entered: nothing leads back to prepared or out of a terminal, anything live can fail, only a started request completes or becomes uncertain, a publication is not cancelled before its outcome is known |
| `GatewayContracts.EventExactly` | packages/ascendop_test_gateway/src/ascendop_test_gateway/contracts.py:300-360 | when a terminal ingest event can be computed, and that it carries the identity, revision and digests it was computed from |
| `RunJournals.PerformKeepsWalk` | packages/ascendop_test_gateway/src/ascendop_test_gateway/journal.py:331-374 | every journal operation keeps the event list a connected walk from prepared to the current state over allowed transitions, cancellation self-loops and the one resume edge |
| `RunJournals.PerformKeepsAcceptance` | packages/ascendop_test_gateway/src/ascendop_test_gateway/journal.py:158-223 | every journal operation keeps an accepted terminal complete: event, retention, acknowledgement and status belong to one recomputable event |
| `RunJournals.AcceptedIsFrozen` | packages/ascendop_test_gateway/src/ascendop_test_gateway/journal.py:158-223 | after acceptance no operation changes state, receipt, event, retention or remote result, and a delivered acknowledgement stays |
| `RunJournals.AcceptanceReadsBack` | packages/ascendop_test_gateway/src/ascendop_test_gateway/journal.py:225-256 | reading the acceptance succeeds exactly for the retained event id |
| `RunJournals.RequiredExactly` | packages/ascendop_test_gateway/src/ascendop_test_gateway/journal.py:258-267 | an acknowledgement may start exactly for the event of the retained terminal, while the retained files are still the retained ones |
| `RunJournals.InitializedExactly` | packages/ascendop_test_gateway/src/ascendop_test_gateway/journal.py:61-82 | a journal is created once for its request, with nothing in it |
| `RunJournals.AttachedExactly` | packages/ascendop_test_gateway/src/ascendop_test_gateway/journal.py:91-122 | a receipt or event is attached exactly if it belongs to the request and contradicts none that is there |
| `RunJournals.ResumedExactly` | packages/ascendop_test_gateway/src/ascendop_test_gateway/journal.py:124-156 | only a failure recorded as one before publication is reopened, and its record is kept |
| `RunJournals.AcceptedExactly` | packages/ascendop_test_gateway/src/ascendop_test_gateway/journal.py:158-223 | when a terminal is accepted the first time and what is then written together; afterwards exactly the same acceptance is accepted and changes nothing |
| `RunJournals.AckRecordedExactly` | packages/ascendop_test_gateway/src/ascendop_test_gateway/journal.py:269-298 | recorded for the accepted event only; delivered stays, anything else counts the attempt that begins and is delivered when confirmed |
| `RunJournals.CancellationRecordedExactly` | packages/ascendop_test_gateway/src/ascendop_test_gateway/journal.py:300-329 | an intent is recorded once for a request that has not ended; another reason is refused |
| `RunJournals.MovedExactly` | packages/ascendop_test_gateway/src/ascendop_test_gateway/journal.py:331-374 | when a transition is accepted, in place or along the relation, and what it writes |
| `RunJournals.RunJournal.Initialize` | packages/ascendop_test_gateway/src/ascendop_test_gateway/journal.py:61-82 | a fresh journal, or the existing one of the same request; another request is refused |
| `RunJournals.RunJournal.AttachReceipt` | packages/ascendop_test_gateway/src/ascendop_test_gateway/journal.py:91-103 | the file takes the receipt of its request once; a different receipt is refused and writes nothing |
| `RunJournals.RunJournal.AttachTerminalIngestEvent` | packages/ascendop_test_gateway/src/ascendop_test_gateway/journal.py:105-122 | one event per journal; a conflicting one is refused and writes nothing |
| `RunJournals.RunJournal.ResumePrepublicationFailure` | packages/ascendop_test_gateway/src/ascendop_test_gateway/journal.py:124-156 | reopens exactly a failed request without receipt whose failure happened before publication |
| `RunJournals.RunJournal.AcceptTerminal` | packages/ascendop_test_gateway/src/ascendop_test_gateway/journal.py:158-223 | event, retention, acknowledgement intent and state are written in one replacement, or nothing is |
| `RunJournals.RunJournal.RecordTerminalAck` | packages/ascendop_test_gateway/src/ascendop_test_gateway/journal.py:269-298 | counts the attempt, or records the answer for this event; delivered is final |
| `RunJournals.RunJournal.RequestCancellation` | packages/ascendop_test_gateway/src/ascendop_test_gateway/journal.py:300-329 | the intent is durable once, for requests that are not terminal |
| `RunJournals.RunJournal.Transition` | packages/ascendop_test_gateway/src/ascendop_test_gateway/journal.py:331-374 | only allowed transitions move the state and append an event; a terminal never moves |
| `GatewayProtocol.PublicationBounded` | packages/ascendop_test_gateway/src/ascendop_test_gateway/runtime.py:55-157 | over every run with crashes anywhere, publications are at most 1 + retries on demand + rejections shaped like a failure before publication |
| `GatewayProtocol.PublicationBoundedFrom` | packages/ascendop_test_gateway/src/ascendop_test_gateway/runtime.py:55-157 | the same bound for the rest of any run after the publication right is used up |
| `GatewayProtocol.BoundIsReached` | packages/ascendop_test_gateway/src/ascendop_test_gateway/runtime.py:83-111 | for every number of retries the bound is attained by a run |
| `GatewayProtocol.ForgedRejectionRepublishes` | packages/ascendop_test_gateway/src/ascendop_test_gateway/runtime.py:83-95 | a recorded rejection shaped like a failure before publication lets a published request be published again without any retry |
| `GatewayProtocol.BoundHoldsExactly` | packages/ascendop_test_gateway/src/ascendop_test_gateway/journal.py:124-156 | at most 1 + retries publications in all runs if and only if the transport reports no such rejection for the request |
| `GatewayProtocol.ResumableBounded` | packages/ascendop_test_gateway/src/ascendop_test_gateway/journal.py:124-156 | in every reachable state a resumable request was published at most as often as there were retries and rejections shaped like a failure before publication |
| `GatewayProtocol.RetryMakesPublishedResumable` | packages/ascendop_test_gateway/src/ascendop_test_gateway/runtime.py:136-148 | a run in which a published request becomes resumable: a retry that raises a request error |
| `GatewayProtocol.RejectionMakesPublishedResumable` | packages/ascendop_test_gateway/src/ascendop_test_gateway/runtime.py:88-95 | another one: a recorded rejection, without any retry |
| `GatewayProtocol.ResumePromiseExactly` | packages/ascendop_test_gateway/src/ascendop_test_gateway/runtime.py:38-42 | only requests that were never published can be resumed, in all runs with at most n retries, if and only if n is 0 and the transport reports no such rejection |
| `GatewayProtocol.UnknownOutcomeStaysUncertain` | packages/ascendop_test_gateway/src/ascendop_test_gateway/runtime.py:112-157 | in every reachable state, while the answer of transport.submit is dealt with: an outcome that may have been a publication is publishing or uncertain, an admission error is recorded as its own failure only |
| `GatewayProtocol.FailuresHaveCauses` | packages/ascendop_test_gateway/src/ascendop_test_gateway/runtime.py:68-148 | over every run, a request that failed without a receipt failed its preflight, was refused before publication or by the endpoint, or was rejected as the transport reported |
| `GatewayProtocol.CancellationStopsPublication` | packages/ascendop_test_gateway/src/ascendop_test_gateway/runtime.py:64-67 | once a cancellation intent is durable transport.submit is never entered again, over every continuation |
| `GatewayProtocol.AcceptanceIsForever` | packages/ascendop_test_gateway/src/ascendop_test_gateway/journal.py:158-256 | from acceptance on, over every continuation, the acceptance reads back and its parts never change |
| `GatewayProtocol.AcknowledgementJustified` | packages/ascendop_test_gateway/src/ascendop_test_gateway/runtime.py:257-290 | each transport.acknowledge call is made while the journal holds retention for that exact event; delivered needs the transport's True or a return path seen ready at acceptance |
| `GatewayProtocol.ConfirmedWasCalled` | packages/ascendop_test_gateway/src/ascendop_test_gateway/runtime.py:280-290 | a confirmed event was really asked for in an earlier acknowledge call |
| `GatewayProtocol.EventsAreAWalk` | packages/ascendop_test_gateway/src/ascendop_test_gateway/contracts.py:66-122 | in every reachable state the event list is a legal walk ending in the current state |
| `GatewayProtocol.RunKeepsInv` | packages/ascendop_test_gateway/src/ascendop_test_gateway/runtime.py:44-290 | the protocol invariant holds over all interleavings of operation-lock holders, acknowledge calls and the watchdog |
| `GatewayRuntimes.OtherStepIsStable` | packages/ascendop_test_gateway/src/ascendop_test_gateway/runtime.py:241-290 | what the holder of one lock may rely on while the holder of the other lock and the watchdog write |
| `GatewayRuntimes.GatewayRuntime.ProtocolHolds` | packages/ascendop_test_gateway/src/ascendop_test_gateway/runtime.py:44-290 | every state the methods reach is a reachable protocol state, so the protocol theorems hold of it |
| `GatewayRuntimes.GatewayRuntime.Prepare` | packages/ascendop_test_gateway/src/ascendop_test_gateway/runtime.py:31-34 | prepare leaves the initial protocol state |
| `GatewayRuntimes.GatewayRuntime.SubmitLocked` | packages/ascendop_test_gateway/src/ascendop_test_gateway/runtime.py:55-68 | what a submit returns, and the only reasons for which it raises, for the journal it starts with and the answers it gets: with a receipt the status, with a cancellation the cancellation, otherwise publishing; the transport is entered at most once, and only for a prepared request or a retry |
| `GatewayRuntimes.GatewayRuntime.Publish` | packages/ascendop_test_gateway/src/ascendop_test_gateway/runtime.py:68-157 | failed if the preflight fails, rejected as the transport reports, accepted with a receipt that is found, uncertain without a retry on demand, and otherwise submitted |
| `GatewayRuntimes.GatewayRuntime.PublishChecked` | packages/ascendop_test_gateway/src/ascendop_test_gateway/runtime.py:83-157 | the part of it after a passed preflight, with the same result and reasons |
| `GatewayRuntimes.GatewayRuntime.ReconcilePublication` | packages/ascendop_test_gateway/src/ascendop_test_gateway/runtime.py:83-108 | goes on to publish only when asked to retry and neither a rejection nor a receipt was found; otherwise it is finished as these answers say |
| `GatewayRuntimes.GatewayRuntime.FinishSubmit` | packages/ascendop_test_gateway/src/ascendop_test_gateway/runtime.py:112-157 | the transport is entered exactly once; its two errors are recorded as their failures, a receipt of this request is accepted, and after any other outcome the call raises and leaves the request uncertain |
| `GatewayRuntimes.GatewayRuntime.Submit` | packages/ascendop_test_gateway/src/ascendop_test_gateway/runtime.py:44-53 | the whole call under the operation lock, with the results, reasons and limits of the locked part |
| `GatewayRuntimes.GatewayRuntime.Status` | packages/ascendop_test_gateway/src/ascendop_test_gateway/runtime.py:159-239 | what a status returns and the only reasons for which it raises: a terminal is not asked about again but imported, a prepared request is reported as it is, without a receipt one is looked for, and with one the remote side is asked, or told to cancel, and its report recorded |
| `GatewayRuntimes.ReportsOfProgressAreRecorded` | packages/ascendop_test_gateway/src/ascendop_test_gateway/runtime.py:222-238 | a report is recorded as it is unless it lags behind, and every report of progress can be recorded |
| `GatewayRuntimes.GatewayRuntime.AcceptObservation` | packages/ascendop_test_gateway/src/ascendop_test_gateway/runtime.py:241-255 | a terminal with an event is retained and accepted, anything else is a transition; it raises only for a report that cannot be recorded or evidence that cannot be scanned |
| `GatewayRuntimes.GatewayRuntime.Cancel` | packages/ascendop_test_gateway/src/ascendop_test_gateway/runtime.py:352-388 | never publishes; a terminal stays, a prepared request is cancelled, a started one is looked up and stays uncertain without a receipt, and with one the remote side is told and its report recorded; raises only for what cannot be recorded |
| `GatewayRuntimes.GatewayRuntime.ResumePrepublication` | packages/ascendop_test_gateway/src/ascendop_test_gateway/runtime.py:39-42 | the request is prepared afterwards exactly if it was, or failed before publication |
| `GatewayRuntimes.GatewayRuntime.Acknowledge` | packages/ascendop_test_gateway/src/ascendop_test_gateway/runtime.py:257-290 | asks the transport exactly once and about this event only, unless delivery is recorded; counts the attempt and records delivery exactly for True; with an acceptance of the event it raises only if the evidence is not found as retained |
| `GatewayRuntimes.GatewayRuntime.RecordAnswer` | packages/ascendop_test_gateway/src/ascendop_test_gateway/runtime.py:280-290 | delivery is recorded exactly for the answer True |
| `GatewayRuntimes.GatewayRuntime.Wait` | packages/ascendop_test_gateway/src/ascendop_test_gateway/runtime.py:292-350 | returns a terminal, an uncertain request, or the watchdog's report about an accepted one |
| `AgentRepositories.AgentRepository.CreateAction` | packages/ascendop_control/src/ascendop_control/storage/repository.py:493-619 | equals the creation transaction of the model: idempotent on its key, refused on any change, rolled back by the candidate index |
| `AgentRepositories.AgentRepository.ExpireLeases` | packages/ascendop_control/src/ascendop_control/storage/repository.py:2566-2592 | every due active lease expires; a claimed or running action and its attempts become uncertain, and its iteration does unconditionally |
| `AgentModel.FirstClaimable` | packages/ascendop_control/src/ascendop_control/storage/repository.py:632-680 | the first row in order that passes every check of the claim loop, or none passes |
| `AgentRepositories.AgentRepository.ClaimAction` | packages/ascendop_control/src/ascendop_control/storage/repository.py:621-833 | equals the claim transaction: expiry first, then the first claimable row, all or nothing |
| `AgentRepositories.AgentRepository.ClaimRow` | packages/ascendop_control/src/ascendop_control/storage/repository.py:678-790 | next ordinal, same lease identity, rotated token, and action and iteration claimed together |
| `AgentModel.FirstAdoptable` | packages/ascendop_control/src/ascendop_control/storage/repository.py:850-880 | the first uncertain row in order whose role has no other active lease, or none |
| `AgentRepositories.AgentRepository.AdoptUncertain` | packages/ascendop_control/src/ascendop_control/storage/repository.py:835-934 | equals the adoption transaction: the lease is active again under the same token |
| `AgentRepositories.AgentRepository.StartAction` | packages/ascendop_control/src/ascendop_control/storage/repository.py:936-1083 | equals the start transaction, with the cancellation of a claimed action whose gate is obsolete |
| `AgentRepositories.AgentRepository.HeartbeatAction` | packages/ascendop_control/src/ascendop_control/storage/repository.py:1085-1107 | extends only an unexpired active lease with its token |
| `AgentRepositories.AgentRepository.EnsureTurnLease` | packages/ascendop_control/src/ascendop_control/storage/repository.py:1109-1283 | revives the exact lease of a finished turn, or changes nothing |
| `AgentRepositories.AgentRepository.CompleteAction` | packages/ascendop_control/src/ascendop_control/storage/repository.py:1285-1477 | equals the completion transaction: replay, obsolete gate, receipt, lease release and intent together |
| `AgentRepositories.AgentRepository.DeferRetry` | packages/ascendop_control/src/ascendop_control/storage/repository.py:1479-1539 | equals the deferral transaction |
| `AgentRepositories.AgentRepository.ApplyRetryDecision` | packages/ascendop_control/src/ascendop_control/storage/repository.py:1659-1811 | equals the retry arbitration: requeue without receipt, or fail with one |
| `AgentRepositories.AgentRepository.CancelAction` | packages/ascendop_control/src/ascendop_control/storage/repository.py:438-491 | cancels the action with its working attempts and releases its lease |
| `AgentRepositories.AgentRepository.CancelObsolete` | packages/ascendop_control/src/ascendop_control/storage/repository.py:1886-1974 | cancels every obsolete waiting action; the lease of a requeued one stays active |
| `AgentRepositories.AgentRepository.RecoverCancelledAction` | packages/ascendop_control/src/ascendop_control/storage/repository.py:2060-2242 | equals the recovery of a cancelled published turn |
| `AgentRepositories.AgentRepository.RecoverDiscardedOutcome` | packages/ascendop_control/src/ascendop_control/storage/repository.py:2244-2444 | equals the recovery of a discarded outcome: new attempt at the next ordinal, rotated token, receipt removed |
| `AgentInvariant.NextOrdinal` | packages/ascendop_control/src/ascendop_control/storage/repository.py:678-684 | counting rows and adding one to the current ordinal give the same, gap-free ordinal |
| `AgentInvariant.ExpireOk` | packages/ascendop_control/src/ascendop_control/storage/repository.py:2566-2592 | expiry keeps everything except possibly the index on live iterations |
| `AgentRuns.ClaimKeepsInv` | packages/ascendop_control/src/ascendop_control/storage/repository.py:621-833 | a claim keeps the record, lease, attempt, receipt, token and intent invariants |
| `AgentRuns.AdoptKeepsInv` | packages/ascendop_control/src/ascendop_control/storage/repository.py:835-934 | so does an adoption |
| `AgentRuns.CompleteKeepsInv` | packages/ascendop_control/src/ascendop_control/storage/repository.py:1285-1477 | so does a completion |
| `AgentRuns.StepKeepsInv` | packages/ascendop_control/src/ascendop_control/storage/repository.py:493-2444 | every committed transaction keeps the whole invariant |
| `AgentGuarantees.RunKeepsInv` | packages/ascendop_control/src/ascendop_control/storage/repository.py:493-2444 | the invariant holds over every run of transactions |
| `AgentGuarantees.OneExecutorPerRole` | packages/ascendop_control/src/ascendop_control/storage/schema.py:240-241 | a claimed or running action has an active lease, and at most one per operator and role is claimed or running |
| `AgentGuarantees.ExpiryClashExactly` | packages/ascendop_control/src/ascendop_control/storage/repository.py:2588-2592 | expiry violates the candidate index exactly when a due lease sits on a finished iteration beside another live or due one of its candidate |
| `AgentGuarantees.ClaimRejectedExactly` | packages/ascendop_control/src/ascendop_control/storage/repository.py:621-833 | a claim is rejected exactly on such a clash, never by the active-lease index |
| `AgentGuarantees.AdoptRejectedExactly` | packages/ascendop_control/src/ascendop_control/storage/repository.py:835-934 | an adoption is rejected exactly on such a clash |
| `AgentGuarantees.WedgeIsReachable` | packages/ascendop_control/src/ascendop_control/storage/repository.py:1931-1960 | create, claim, defer, retry, sweep and create again reach a clash |
| `AgentGuarantees.ExpiryWedge` | packages/ascendop_control/src/ascendop_control/storage/repository.py:2566-2592 | in that state every claim and adoption by anybody is rejected once the forgotten lease is due |
| `AgentGuarantees.ReceiptMeansSettled` | packages/ascendop_control/src/ascendop_control/storage/repository.py:1285-1477 | a committed receipt names the terminal state of its action, whose lease is not active |
| `AgentGuarantees.ReplayChangesNothing` | packages/ascendop_control/src/ascendop_control/storage/repository.py:1297-1321 | corollary, read back from the guards: with a receipt committed, completing either repeats it exactly under the same token and changes nothing, or is rejected |
| `AgentGuarantees.IntentsWrittenOnce` | packages/ascendop_control/src/ascendop_control/storage/outbox_repository.py:33-61 | a new completion intent carries the receipt committed in the same transaction, for the current attempt; old intents stay |
| `AgentGuarantees.IntentsNeverChange` | packages/ascendop_control/src/ascendop_control/storage/outbox_repository.py:47-51 | over every run a completion intent never changes |
| `AgentGuarantees.AttemptsMirrorAction` | packages/ascendop_control/src/ascendop_control/storage/repository.py:1045-1056 | claimed, running and uncertain agree between action and current attempt, superseded attempts are in none of them, ordinals are exactly 1..n with the current at n |
| `AgentGuarantees.FencedForever` | packages/ascendop_control/src/ascendop_control/storage/repository.py:690-694 | a token that lost its action never becomes its token again |
| `AgentGuarantees.FencedIsRejected` | packages/ascendop_control/src/ascendop_control/storage/repository.py:3216-3232 | corollary, read back from the guards: start, heartbeat, deferral and completion with such a token are rejected, the replay branch included |
| `AgentGuarantees.RotationFences` | packages/ascendop_control/src/ascendop_control/storage/repository.py:690-694 | once a transaction changes the token, no later use of the earlier one succeeds, over every continuation |
| `AgentGuarantees.ClaimRotates` | packages/ascendop_control/src/ascendop_control/storage/repository.py:690-694 | every claim rotates the token of its action |
| `AgentGuarantees.RecoverDiscardedRotates` | packages/ascendop_control/src/ascendop_control/storage/repository.py:2409-2421 | so does the recovery of a discarded outcome |
| `AgentOutcomes.CreatedExactly` | packages/ascendop_control/src/ascendop_control/storage/repository.py:525-560 | when an action is created: nobody owns the workspace, the ids are new and no iteration of the candidate is live; a repetition exactly if it says the same |
| `AgentOutcomes.CreatedWaits` | packages/ascendop_control/src/ascendop_control/storage/repository.py:582-600 | a created action is queued with no attempt, lease, agent or receipt |
| `AgentOutcomes.ExpiryOutcome` | packages/ascendop_control/src/ascendop_control/storage/repository.py:2566-2592 | what an expiring lease does to its action, current attempt and iteration, and that no other record changes |
| `AgentOutcomes.ClaimOutcome` | packages/ascendop_control/src/ascendop_control/storage/repository.py:632-833 | a claim takes the first action of the rows that nobody of its role works or holds a lease beside, whose gate is current and for which an agent was selected; what it writes for it; and nothing else changes |
| `AgentOutcomes.AdoptOutcome` | packages/ascendop_control/src/ascendop_control/storage/repository.py:850-934 | an adoption takes the first uncertain action at hand without another active lease in its role, and gives its own lease back under the same token |
| `AgentOutcomes.StartedExactly` | packages/ascendop_control/src/ascendop_control/storage/repository.py:946-990 | who can start an action: the holder of its live lease, from claimed, running or uncertain, for the turn it has |
| `AgentOutcomes.StartOutcome` | packages/ascendop_control/src/ascendop_control/storage/repository.py:976-1083 | behind a current gate the action runs; one that was only claimed is cancelled with a receipt behind an obsolete gate; a running one keeps its lease longer |
| `AgentOutcomes.HeartbeatExactly` | packages/ascendop_control/src/ascendop_control/storage/repository.py:1085-1107 | granted exactly to the holder of the live lease; moves only its end |
| `AgentOutcomes.EnsuredExactly` | packages/ascendop_control/src/ascendop_control/storage/repository.py:1109-1283 | the lease of a finished turn is revived exactly when turn, attempt, runner and states match, the gate is current and nothing else of its role works or holds a lease; a live lease is left alone |
| `AgentOutcomes.CompletedExactly` | packages/ascendop_control/src/ascendop_control/storage/repository.py:1285-1335 | when a first completion is granted: to the holder of the live lease, for a receipt of that work; and the two conflicts that still refuse it |
| `AgentOutcomes.CompletionOutcome` | packages/ascendop_control/src/ascendop_control/storage/repository.py:1335-1460 | what it commits: completed behind a current gate with its intent, cancelled without one behind an obsolete gate, failed or cancelled as reported, and for an uncertain outcome no receipt and the lease kept |
| `AgentOutcomes.ReplayedExactly` | packages/ascendop_control/src/ascendop_control/storage/repository.py:1297-1321 | with a receipt committed, a completion is accepted exactly if it repeats it under the lease that earned it with the stored continuation, and changes nothing |
| `AgentOutcomes.ClaimedWorkCompletes` | packages/ascendop_control/src/ascendop_control/storage/repository.py:936-1477 | a claimed action behind current gates can be started and completed in time by its holder, and goes on exactly once |
| `AgentOutcomes.DeferredExactly` | packages/ascendop_control/src/ascendop_control/storage/repository.py:1479-1539 | when a retryable failure is deferred, and what waits then |
| `AgentOutcomes.RetryExactly` | packages/ascendop_control/src/ascendop_control/storage/repository.py:1659-1755 | when a retry is granted: an arbitrable failure with nothing active or live in its way; the action is queued again under its lease and token, without a receipt |
| `AgentOutcomes.ExhaustedExactly` | packages/ascendop_control/src/ascendop_control/storage/repository.py:1679-1797 | an exhausted arbitration fails the action with a receipt and one more suffix, once |
| `AgentOutcomes.CancelledExactly` | packages/ascendop_control/src/ascendop_control/storage/repository.py:438-491 | what can be cancelled, and that exactly its current work and active lease end with it |
| `AgentOutcomes.SweptExactly` | packages/ascendop_control/src/ascendop_control/storage/repository.py:1886-1974 | the sweep always succeeds and cancels exactly the waiting workflow actions that lost their gate; a deferred one gives up its lease, a queued one does not |
| `AgentOutcomes.CancelledRecoveredExactly` | packages/ascendop_control/src/ascendop_control/storage/repository.py:2060-2242 | when a cancelled published turn is recovered, and what runs again |
| `AgentOutcomes.DiscardedRecoveredExactly` | packages/ascendop_control/src/ascendop_control/storage/repository.py:2244-2444 | when a discarded outcome is recovered, and the attempt and token it goes on with |
| `AgentSelection.SelectAgent` | packages/ascendop_control/src/ascendop_control/storage/repository.py:2594-2671 | the selected agent is eligible and its key precedes that of every other eligible one; none is selected only if none is eligible |
| `AgentSelection.EligibleExactly` | packages/ascendop_control/src/ascendop_control/storage/repository.py:2594-2660 | who can be selected, condition by condition |
| `AgentSelection.OrderExactly` | packages/ascendop_control/src/ascendop_control/storage/repository.py:2632-2671 | who comes first: smaller priority number, never selected, selected longer ago, smaller id; an enabled binding sets the priority |
| `AgentSelection.HasCapabilities` | packages/ascendop_control/src/ascendop_control/storage/repository.py:2650-2655 | true exactly when every required capability is there with the required value |
| `AgentSelection.OthersPickedBetween` | packages/ascendop_control/src/ascendop_control/storage/repository.py:729-736 | between two selections of one agent all others of the team are selected |
| `AgentSelection.RoundRobin` | packages/ascendop_control/src/ascendop_control/storage/repository.py:2632-2671 | any |team| consecutive recorded selections pick every agent of the team exactly once |
| `SourcePromotion.SealPassesManifest` | packages/ascendop_daemon/src/ascendop_daemon/automation/agent_workspace.py:175-221 | every seal that seal() makes in scope passes the manifest check of promote() |
| `SourcePromotion.SealSaysExactly` | packages/ascendop_daemon/src/ascendop_daemon/automation/agent_workspace.py:185-212 | a seal lists exactly the differing paths in ascending order, the present ones with their content and the others as deleted |
| `SourcePromotion.ManifestExactly` | packages/ascendop_daemon/src/ascendop_daemon/automation/agent_workspace.py:630-636 | the manifest check passes exactly if the changes stay in scope and split into files and deletions |
| `SourcePromotion.ResumableExactlyPartial` | packages/ascendop_daemon/src/ascendop_daemon/automation/agent_workspace.py:570-591 | an origin is accepted exactly when it is the staged tree with some subset of the sealed changes made |
| `SourcePromotion.StagedIsPartial` | packages/ascendop_daemon/src/ascendop_daemon/automation/agent_workspace.py:86-173 | the origin as it was staged can be promoted |
| `SourcePromotion.PrefixStaysPartial` | packages/ascendop_daemon/src/ascendop_daemon/automation/agent_workspace.py:275-297 | every prefix of the write loop leaves an origin that can be resumed |
| `SourcePromotion.FullRunReachesSeal` | packages/ascendop_daemon/src/ascendop_daemon/automation/agent_workspace.py:298-303 | a full run from any such origin ends at the sealed workspace |
| `SourcePromotion.PromotionIsResumable` | packages/ascendop_daemon/src/ascendop_daemon/automation/agent_workspace.py:223-315 | after any interruptions the next promotion is accepted exactly when none fell inside the replacement of a file; accepted and run to its end it leaves the sealed workspace, so the final digest check cannot fail |
| `SourcePromotion.LeftoverIsRefused` | packages/ascendop_daemon/src/ascendop_daemon/automation/agent_workspace.py:580-585 | a file that neither the staged nor the sealed tree has makes every promotion refuse |
| `SourcePromotion.DeathInsideReplacementBlocks` | packages/ascendop_daemon/src/ascendop_daemon/automation/agent_workspace.py:700-709 | a death while one added file is copied: every later promotion is refused |
| `SourcePromotion.RemovingLeftoverUnblocks` | packages/ascendop_daemon/src/ascendop_daemon/automation/agent_workspace.py:700-709 | once the leftover copy is removed the promotion can go on and ends at the sealed workspace |
| `SourcePromotion.AgentWorkspace.Stage` | packages/ascendop_daemon/src/ascendop_daemon/automation/agent_workspace.py:86-173 | the first stage copies the origin and records its snapshot, later ones read it back; an unexpected source is refused |
| `SourcePromotion.AgentWorkspace.SealSource` | packages/ascendop_daemon/src/ascendop_daemon/automation/agent_workspace.py:175-221 | seals exactly the in-scope difference, and only the same seal again |
| `SourcePromotion.AgentWorkspace.ValidateResumableOrigin` | packages/ascendop_daemon/src/ascendop_daemon/automation/agent_workspace.py:570-591 | true exactly when every path is old, or changed and new |
| `SourcePromotion.AgentWorkspace.ReplaceFile` | packages/ascendop_daemon/src/ascendop_daemon/automation/agent_workspace.py:700-709 | the file takes its content, or a death leaves the copy beside it under a name that was not in use |
| `SourcePromotion.AgentWorkspace.WriteChanges` | packages/ascendop_daemon/src/ascendop_daemon/automation/agent_workspace.py:275-297 | the sealed writes up to a death between or inside them, all of them when it returns |
| `SourcePromotion.AgentWorkspace.Promote` | packages/ascendop_daemon/src/ascendop_daemon/automation/agent_workspace.py:223-315 | refused before the first write on any foreign value or without an intact seal; a seal of the staged workspace in scope is never refused; it leaves the sealed writes up to its death, and finishes at the sealed tree with its receipt |
| `OutputPromotion.SealIsFaithful` | packages/ascendop_daemon/src/ascendop_daemon/automation/agent_outputs.py:90-155 | sealed outputs are changed, valid isolated files of their contracts |
| `OutputPromotion.SealedExactly` | packages/ascendop_daemon/src/ascendop_daemon/automation/agent_outputs.py:104-139 | sealing succeeds exactly if no required file is missing, none is unacceptable and none is unchanged that must change; and yields exactly the changed files in contract order |
| `OutputPromotion.SealHoldsExactly` | packages/ascendop_daemon/src/ascendop_daemon/automation/agent_outputs.py:122-139 | an output is in the seal exactly if it is a changed isolated file of a contract: nothing is dropped and nothing added |
| `OutputPromotion.ItemPromotedExactly` | packages/ascendop_daemon/src/ascendop_daemon/automation/agent_outputs.py:187-212 | when an item is promoted, and that exactly its target changes |
| `OutputPromotion.ForeignTargetStops` | packages/ascendop_daemon/src/ascendop_daemon/automation/agent_outputs.py:202-208 | a target that somebody else changed stops the promotion at its item |
| `OutputPromotion.RestorePlannedExactly` | packages/ascendop_daemon/src/ascendop_daemon/automation/agent_outputs.py:251-298 | when a stale item can be undone, and to what |
| `OutputPromotion.PromotionAcceptedExactly` | packages/ascendop_daemon/src/ascendop_daemon/automation/agent_outputs.py:186-212 | a promotion of staged targets can run to its end exactly when its files are still valid and outputs of one path agree |
| `OutputPromotion.PromotionResumes` | packages/ascendop_daemon/src/ascendop_daemon/automation/agent_outputs.py:186-221 | interrupted any number of times after any items, every repetition is accepted and one that runs to its end leaves the targets of an uninterrupted promotion |
| `OutputPromotion.InterruptionsDoNotShow` | packages/ascendop_daemon/src/ascendop_daemon/automation/agent_outputs.py:186-221 | what ran to its end after any interruptions is what a promotion without them leaves |
| `OutputPromotion.RecoveryUndoesPromotion` | packages/ascendop_daemon/src/ascendop_daemon/automation/agent_outputs.py:223-321 | recovery after a stale promotion restores exactly the targets of its staging, through any interruptions and repetitions of both |
| `OutputPromotion.RecoveryAcceptedExactly` | packages/ascendop_daemon/src/ascendop_daemon/automation/agent_outputs.py:251-285 | it is accepted exactly when the prior promotion wrote every stale target |
| `OutputPromotion.UnknownValueRefused` | packages/ascendop_daemon/src/ascendop_daemon/automation/agent_outputs.py:286-292 | a target with neither the stale nor the restored content makes the recovery refuse |
| `OutputPromotion.AgentOutputBroker.Stage` | packages/ascendop_daemon/src/ascendop_daemon/automation/agent_outputs.py:49-88 | delivery needs every target as its contract found it; isolated files stay, and a new one is a copy of the target it starts from |
| `OutputPromotion.AgentOutputBroker.SealOutputs` | packages/ascendop_daemon/src/ascendop_daemon/automation/agent_outputs.py:90-155 | returns exactly if every contract is sealable and an earlier seal is the same; the seal is exactly the changed files in contract order |
| `OutputPromotion.AgentOutputBroker.Promote` | packages/ascendop_daemon/src/ascendop_daemon/automation/agent_outputs.py:157-221 | writes a prefix of the outputs, all of them and the receipt when it returns, and never fails where a full run exists; repeated, it returns exactly if the receipt is the seal and every target still holds its output |
| `OutputPromotion.AgentOutputBroker.ValidateReceipt` | packages/ascendop_daemon/src/ascendop_daemon/automation/agent_outputs.py:400-417 | true only if the receipt repeats the seal and every target holds its output |
| `OutputPromotion.AgentOutputBroker.RecoverObsolete` | packages/ascendop_daemon/src/ascendop_daemon/automation/agent_outputs.py:223-321 | everything is checked before the first write; a refused recovery writes nothing; repeated, it returns exactly if everything is still restored |
| `CasePolicy.ReadInputs` | packages/ascendop_daemon/src/ascendop_daemon/automation/case_data_policy.py:67-87 | the loop computes the normalized dictionary, refusing duplicates, bad ids and changed identities |
| `CasePolicy.ReplacementTargets` | packages/ascendop_daemon/src/ascendop_daemon/automation/case_data_policy.py:178-197 | the loop computes the mapping, refusing unprotected or repeated originals |
| `CasePolicy.CheckProtected` | packages/ascendop_daemon/src/ascendop_daemon/automation/case_data_policy.py:145-161 | true exactly when every protected case has an identical or execution-equal successor |
| `CasePolicy.ValidateCaseDataChange` | packages/ascendop_daemon/src/ascendop_daemon/automation/case_data_policy.py:123-175 | computes the revision whose acceptance and result RevisedExactly and OnlyWellFormedRevised describe |
| `CasePolicy.RetainedAreProtected` | packages/ascendop_daemon/src/ascendop_daemon/automation/case_data_policy.py:100-120 | retained regressions are protected, not active and not replaced; an earlier regression only leaves by one of these |
| `CasePolicy.RevisionMeetsNextGuards` | packages/ascendop_daemon/src/ascendop_daemon/automation/case_data_policy.py:130-143 | the result of a revision satisfies the guards of the next: regressions are protected, protected cases executed, both partitions read back unchanged |
| `CasePolicy.RevisionKeepsProtected` | packages/ascendop_daemon/src/ascendop_daemon/automation/case_data_policy.py:145-161 | each protected case of a revision has a successor that is identical or has the same execution key |
| `CasePolicy.ProtectedSurvive` | packages/ascendop_daemon/src/ascendop_daemon/automation/case_data_policy.py:123-175 | over every chain of revisions each protected case keeps such a successor under the composed replacements |
| `CasePolicy.SameCasesAccepted` | packages/ascendop_daemon/src/ascendop_daemon/automation/case_data_policy.py:123-175 | proposing the same cases again is accepted and changes nothing |
| `CasePolicy.ReadExactly` | packages/ascendop_daemon/src/ascendop_daemon/automation/case_data_policy.py:67-87 | when inputs are read, and what they become |
| `CasePolicy.TargetsExactly` | packages/ascendop_daemon/src/ascendop_daemon/automation/case_data_policy.py:178-197 | when replacements are accepted, and where each protected case is carried |
| `CasePolicy.PartitionsExactly` | packages/ascendop_daemon/src/ascendop_daemon/automation/case_data_policy.py:90-97 | when two partitions are accepted together |
| `CasePolicy.RetainedExactly` | packages/ascendop_daemon/src/ascendop_daemon/automation/case_data_policy.py:100-120 | when cases can be retained, and which cases then are |
| `CasePolicy.RevisedExactly` | packages/ascendop_daemon/src/ascendop_daemon/automation/case_data_policy.py:143-175 | a change that is read without complaint is accepted exactly if every protected case has a successor that is equal to it or is its replacement with the same execution key, and the result fits |
| `CasePolicy.OnlyWellFormedRevised` | packages/ascendop_daemon/src/ascendop_daemon/automation/case_data_policy.py:123-143 | anything that is not read without complaint is refused |
| `CasePolicy.DifferencesExactly` | packages/ascendop_daemon/src/ascendop_daemon/automation/case_data_policy.py:162-166 | the added, removed and changed ids that a revision reports |
| `CasePolicy.ReplacementAcceptedExactly` | packages/ascendop_daemon/src/ascendop_daemon/automation/case_data_policy.py:149-160 | replacing one protected case by another is accepted exactly if both have one execution key; the successor is protected from then on |
| `InterleavedMeasurement.NormalizePlan` | packages/ascendop_protocol/src/ascendop_protocol/interleaved_measurement.py:22-137 | accepts exactly the valid plans and keeps their content |
| `InterleavedMeasurement.PlanExactly` | packages/ascendop_protocol/src/ascendop_protocol/interleaved_measurement.py:22-137 | what a valid plan is: two labels over at least two distinct sessions, each balanced, each label starting one, a window within the samples |
| `InterleavedMeasurement.BalancedExactly` | packages/ascendop_protocol/src/ascendop_protocol/interleaved_measurement.py:71-105 | a session is balanced as multiplicities of its two labels and the product of blocks, invocations and multiplicity say |
| `InterleavedMeasurement.CheckSession` | packages/ascendop_protocol/src/ascendop_protocol/interleaved_measurement.py:71-105 | true exactly for a session that balances both labels and yields the declared samples |
| `InterleavedMeasurement.ScheduleSession` | packages/ascendop_protocol/src/ascendop_protocol/interleaved_measurement.py:140-182 | a schedule for exactly the valid requests; each entry stands where block, epoch and invocation say; the final guard never fires |
| `InterleavedMeasurement.ScheduleBlocks` | packages/ascendop_protocol/src/ascendop_protocol/interleaved_measurement.py:161-177 | 2 x samples entries, numbered by position, each label samples times |
| `InterleavedMeasurement.PositionOnce` | packages/ascendop_protocol/src/ascendop_protocol/interleaved_measurement.py:165-166 | each label takes a position at most once |
| `InterleavedMeasurement.EveryPositionTaken` | packages/ascendop_protocol/src/ascendop_protocol/interleaved_measurement.py:165-166 | each label takes every position below the number of samples |
| `InterleavedMeasurement.WindowCovered` | packages/ascendop_protocol/src/ascendop_protocol/interleaved_measurement.py:48-55 | corollary of EveryPositionTaken and the plan check: both labels cover the middle window |
| `InterleavedMeasurement.PairsExactlyTwice` | packages/ascendop_protocol/src/ascendop_protocol/interleaved_measurement.py:10-15 | every pair key occurs exactly twice, once for each label |
| `Outbox.AttemptsCountClaims` | packages/ascendop_control/src/ascendop_control/storage/outbox_repository.py:80-104 | attempts equals the number of granted claims of the row |
| `Outbox.OnlyLatestClaim` | packages/ascendop_control/src/ascendop_control/storage/outbox_repository.py:152-158 | finish, renew and defer succeed only with the token of the latest claim, in every reachable state |
| `Outbox.SpentForever` | packages/ascendop_control/src/ascendop_control/storage/outbox_repository.py:152-158 | a token that lost its row never works again, over every continuation |
| `Outbox.NewClaimSpendsOld` | packages/ascendop_control/src/ascendop_control/storage/outbox_repository.py:96-104 | a new claim takes the row from the earlier token |
| `Outbox.DeliveredIsFinal` | packages/ascendop_control/src/ascendop_control/storage/outbox_repository.py:123-135 | payloads never change and a delivered row never changes at all |
| `Outbox.OneNext` | packages/ascendop_control/src/ascendop_control/storage/outbox_repository.py:89-97 | the query has at most one first row |
| `Outbox.EnqueuedExactly` | packages/ascendop_control/src/ascendop_control/storage/outbox_repository.py:33-61 | when an intent is written or accepted again, and that a new one is pending and available at once |
| `Outbox.ClaimedExactly` | packages/ascendop_control/src/ascendop_control/storage/outbox_repository.py:80-104 | a claim takes, of the rows that are pending and available or claimed and run out, the first by availability, age and digest, or finds none; and what it writes |
| `Outbox.RenewedExactly` | packages/ascendop_control/src/ascendop_control/storage/outbox_repository.py:106-121 | granted exactly for a live claim of this token; moves only its end |
| `Outbox.FinishedExactly` | packages/ascendop_control/src/ascendop_control/storage/outbox_repository.py:123-135 | granted exactly for a live claim of this token; the row is delivered with its result and held by nobody |
| `Outbox.DeferredExactly` | packages/ascendop_control/src/ascendop_control/storage/outbox_repository.py:137-149 | granted exactly for a live claim of this token; the row is available again after the delay and held by nobody |
| `Outbox.OneRowPerIntent` | packages/ascendop_control/src/ascendop_control/storage/outbox_repository.py:33-61 | over every run there is at most one row per origin, attempt and topic |
| `OutboxRepositories.OutboxRepository.EnqueueIntent` | packages/ascendop_control/src/ascendop_control/storage/outbox_repository.py:33-61 | one row per origin, attempt and topic; a different payload is refused |
| `OutboxRepositories.OutboxRepository.FirstDue` | packages/ascendop_control/src/ascendop_control/storage/outbox_repository.py:89-97 | the one due row of the topic that comes before every other in the order of availability, creation and digest |
| `OutboxRepositories.OutboxRepository.ClaimOutbox` | packages/ascendop_control/src/ascendop_control/storage/outbox_repository.py:80-104 | claims that row under a new token, or finds none |
| `OutboxRepositories.OutboxRepository.RenewOutbox` | packages/ascendop_control/src/ascendop_control/storage/outbox_repository.py:106-121 | extends only a live claim of this token |
| `OutboxRepositories.OutboxRepository.FinishOutbox` | packages/ascendop_control/src/ascendop_control/storage/outbox_repository.py:123-135 | delivers only a live claim of this token |
| `OutboxRepositories.OutboxRepository.DeferOutbox` | packages/ascendop_control/src/ascendop_control/storage/outbox_repository.py:137-149 | puts back only a live claim of this token |
| `Delivery.DeliverClaim` | packages/ascendop_control/src/ascendop_control/delivery.py:13-41 | the first write is the one that the handler's answer asks for: finishing with its result, or deferring a paused or remotely pending row and one whose handler raised; the report says whether it was granted; and all writes use the claimed token, wherever the process dies |
| `Delivery.Conclude` | packages/ascendop_control/src/ascendop_control/delivery.py:17-41 | the part of it after the handler, with the deferral that follows a refused write |
| `Delivery.WriteAnswer` | packages/ascendop_control/src/ascendop_control/delivery.py:18-31 | the write for each disposition and topic, and that a row is reported finished only if it is delivered |
| `Outbox.LostClaimWritesNothing` | packages/ascendop_control/src/ascendop_control/delivery.py:33-40 | in any interleaving with other workers, from the moment a claim lost its row the database is what the others alone make of it |
| `Delivery.LostDeliveryDoesNotShow` | packages/ascendop_control/src/ascendop_control/delivery.py:33-40 | a delivery that loses its claim anywhere leaves from then on what the others alone make of the table |
| `Delivery.DispatchTopic` | packages/ascendop_control/src/ascendop_control/delivery.py:44-55 | distinct ids, at most limit of them, all delivered; it stops early only when no row is left |
| `WorkspaceOwnership.AdmitExtends` | packages/ascendop_control/src/ascendop_control/storage/workspace_repository.py:79-142 | a fresh admission appends one link to the history of its workspace and keeps the others |
| `WorkspaceOwnership.LinearFromTheStart` | packages/ascendop_control/src/ascendop_control/storage/workspace_repository.py:79-142 | over every run each workspace's publications are one chain of revisions 1..head, each naming its predecessor's action, with one campaign and operator, and each publication has its projection |
| `WorkspaceOwnership.RevisionsDistinct` | packages/ascendop_control/src/ascendop_control/storage/workspace_repository.py:107-117 | two publications of a workspace never share a revision |
| `WorkspaceOwnership.NothingIsRewound` | packages/ascendop_control/src/ascendop_control/storage/workspace_repository.py:83-88 | published intents, projections and heads never go back |
| `WorkspaceOwnership.ReplayKeepsHead` | packages/ascendop_control/src/ascendop_control/storage/workspace_repository.py:99-106 | a repeated admission succeeds without change however far ownership moved on; a changed one is refused |
| `WorkspaceOwnership.OneSuccessor` | packages/ascendop_control/src/ascendop_control/storage/workspace_repository.py:107-117 | of all admissions expecting the same head at most one is granted |
| `WorkspaceOwnership.AdmittedExactly` | packages/ascendop_control/src/ascendop_control/storage/workspace_repository.py:79-142 | in every reachable state, when a new admission is granted: it follows the head, the workspace is not busy and the action owns no other one; and what it writes, its projection included |
| `WorkspaceOwnership.ProjectedExactly` | packages/ascendop_control/src/ascendop_control/storage/workspace_repository.py:19-35 | when a projection is accepted, and which event it asks for |
| `WorkspaceOwnership.FactKeepsEvent` | packages/ascendop_control/src/ascendop_control/storage/outbox_repository.py:52-61 | a fact gets the next event and keeps it over every continuation |
| `WorkspaceRepositories.WorkspaceOwnerRepository.RecordSourceFact` | packages/ascendop_control/src/ascendop_control/storage/outbox_repository.py:52-61 | another intent of the outbox becomes a source with its own event, once |
| `WorkspaceRepositories.WorkspaceOwnerRepository.EnqueueProjection` | packages/ascendop_control/src/ascendop_control/storage/workspace_repository.py:19-35 | a projection only of an accepted source, at the source's event, once |
| `WorkspaceRepositories.WorkspaceOwnerRepository.AdmitWorkspaceAction` | packages/ascendop_control/src/ascendop_control/storage/workspace_repository.py:79-142 | equals the admission transaction, with rollback |
| `EvidenceOperations.ColumnsAgree` | packages/ascendop_control/src/ascendop_control/storage/repository.py:2673-3076 | over every run the column state equals the document state, unplaced rows have no route, and a result exists exactly in terminal states with the row's route |
| `EvidenceOperations.RouteWrittenOnce` | packages/ascendop_control/src/ascendop_control/storage/repository.py:2855-2934 | over every run a route is written at most once and a completed request never changes |
| `EvidenceOperations.CreateRepeatedExactly` | packages/ascendop_control/src/ascendop_control/storage/repository.py:2705-2722 | a creation can be repeated exactly while the request is queued |
| `EvidenceOperations.CreateAfterClaimRefused` | packages/ascendop_control/src/ascendop_control/storage/repository.py:2715-2719 | create, claim, and the same creation again: it is refused |
| `EvidenceOperations.CreatedExactly` | packages/ascendop_control/src/ascendop_control/storage/repository.py:2705-2750 | when a new request is written, queued and unplaced |
| `EvidenceOperations.ClaimOutcome` | packages/ascendop_control/src/ascendop_control/storage/repository.py:2791-2853 | a claim call requeues run-out claims, takes the oldest request its executor may take, and leaves every other request as it was |
| `EvidenceOperations.LiveClaimSurvives` | packages/ascendop_control/src/ascendop_control/storage/repository.py:2793-2797 | a live claim survives every other claim call |
| `EvidenceOperations.ClaimGranted` | packages/ascendop_control/src/ascendop_control/storage/repository.py:2786-2790 | the arguments that a granted claim had |
| `EvidenceOperations.UseOutcome` | packages/ascendop_control/src/ascendop_control/storage/repository.py:2855-2982 | what routing and deferring write |
| `EvidenceOperations.RouteRepeatedExactly` | packages/ascendop_control/src/ascendop_control/storage/repository.py:2886-2893 | a placed request accepts exactly its own route again, a queued one none |
| `EvidenceOperations.CompletedExactly` | packages/ascendop_control/src/ascendop_control/storage/repository.py:2984-3076 | in every reachable state, when a result is accepted and what it writes |
| `EvidenceOperations.OutsiderUsesExactly` | packages/ascendop_control/src/ascendop_control/storage/repository.py:2894-2899 | in every reachable state the latest claimant of a claimed request can route or defer it exactly until it deferred it, anybody else exactly with a blank token after that |
| `EvidenceOperations.BlankTokenRoutes` | packages/ascendop_control/src/ascendop_control/storage/repository.py:2966-2971 | a run that ends in such a use: create, claim, defer, route with a blank token |
| `EvidenceOperations.SpentForever` | packages/ascendop_control/src/ascendop_control/storage/repository.py:2894-2899 | a token that lost its request never routes or defers it again, over every continuation |
| `EvidenceRepositories.EvidenceRepository.CreateRequest` | packages/ascendop_control/src/ascendop_control/storage/repository.py:2673-2761 | equals the creation transaction |
| `EvidenceRepositories.EvidenceRepository.RequeueExpired` | packages/ascendop_control/src/ascendop_control/storage/repository.py:2793-2811 | every expired claim returns to the queue, column and document |
| `EvidenceRepositories.EvidenceRepository.ClaimOperation` | packages/ascendop_control/src/ascendop_control/storage/repository.py:2778-2853 | claims the oldest queued request of the executor |
| `EvidenceRepositories.EvidenceRepository.RouteOperation` | packages/ascendop_control/src/ascendop_control/storage/repository.py:2855-2934 | places a claimed request once; afterwards only the same route is accepted |
| `EvidenceRepositories.EvidenceRepository.DeferOperation` | packages/ascendop_control/src/ascendop_control/storage/repository.py:2936-2982 | ends the claim and leaves the state claimed until the delay is over |
| `EvidenceRepositories.EvidenceRepository.CompleteOperation` | packages/ascendop_control/src/ascendop_control/storage/repository.py:2984-3076 | result and terminal state together, for the route of the row |

## Left out

- SQL, SQLite pragmas and JSON encoding: a table is a map, a transaction one atomic function, canonical JSON is equality of values; unique indexes are checked when a transaction commits.
- Digests, tokens and generated ids are values that are equal only to themselves; a generated id that repeats is rejected. Which action a token was made for is remembered in a map that is no table.
- Timestamps are integers and any operation may see any time, so no theorem needs clocks that agree.
- The rows of actions, attempts, leases, iterations and receipts are grouped by action, so that an update addressed by attempt or lease id touches the rows of its own action because these ids are primary keys.
- Checks that an argument is non-empty text or a known word (reasons, generations, decisions, verification labels) where they only guard the call.
- Free texts, heartbeats, events, quarantine, migrations, pinning and the reclassification of legacy failures; texts that decide a branch are flags (`retryable`, `auth`, `legacy`, `superseded`, `discarded`, the workflow origin, the completeness of a binding).
- The workflow gate, the agent registry and the formal writers of a workspace are parameters of the transactions that read them; AgentModel takes the agent chosen for each action as a parameter, AgentSelection models the choice.
- Queries without an order return their rows in any order; the order of queued actions is a parameter.
- agent_retry_candidates, the promotion and recovery guards and all read projections: they change nothing.
- Locks are atomicity assumptions: one holder of the operation lock and one of the acknowledgement lock at a time; a lock that cannot be taken raises.
- The transport, the evidence scan, handlers, adapters and payload validators answer anything they like; the body of the payload checks is not part of this model.
- Symlinks, directories, long paths, the ignore list and glob scopes: a file tree is a map from paths to contents, a write scope is a set of paths.
- Temporary files other than those in the origin of a source promotion: no check looks at the ones beside journals, receipts and output targets, so these replacements are atomic. The name of a temporary file is generated and is no path of the staged or the sealed tree.
- Input and output errors of a promotion, which remove the temporary file and raise.
- The staging and auditing of evidence files beside the source, and the output kinds: an output that starts as a copy of its target is marked in its contract. Output ids are distinct within one action.
- Capability values other than flags and null never compare equal, as decoded objects do not under an identity comparison.
- A case id that is missing or not an integer counts as 0; the size limit of the input file is a parameter; sorted lists in the result of a case revision are sets.
- Metrics, reasons and timestamps of the journal that no guard reads; the clocks of wait, whose polls and verdicts of no progress are arbitrary.
- The watchdog may write any state that has not ended for a request with a receipt, so a request may have moved on before it becomes ACCEPTED; then the call raises.
- DeliverClaim: the renewal thread is part of the steps that others may take while the handler runs.
- management_repository.py, service heartbeats, provider and HTTP code, runner prompts, IDE adapters and the Markov demonstration: the same queue pattern again, or input and output.
