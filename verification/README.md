# Durable execution protocols of the agent service, in Dafny

This project models the parts of the agent service that must stay correct while
operations interleave, processes crash and calls fail half way, and proves what
they keep. Two script families belong to it: the artifact archive and the
installation cutover.

| files | what they model |
|---|---|
| `AuthorityLifecycle`, `AuthoritySafety`, `AuthorityMirror` | the authority lease: start, renew, assertActive and stop, cut at every `await`; lease accounting, fence stability, the crash-recoverable mirror |
| `DispatchLoop`, `DispatchLoopSafety` | the single-flight pump loop with coalesced wakeups, fail-closed behaviour and final stop |
| `RunDispatch`, `RunDispatcher` | the protocol of one dispatcher pump over its ports, and the pump that keeps it |
| `SandboxStream`, `SandboxStreamStore` | the write-once output stream, its cursors and polls, and the store they share |
| `SandboxOutput` | the pager over the finished output of a foreground execution |
| `ToolExecution`, `RuntimeTools` | the intent and result records of a tool call, and the execution body |
| `SandboxAdmissions` | child plans under parent plans, at any depth |
| `EmbeddingSlots`, `EmbeddingSlotsSafety`, `EmbeddingBoundary` | budget slots of a physical embedding request, and the code that uses them |
| `ExecutionAdmission` | admission of a Worker request between changes of its parent binding |
| `ArchiveTree`, `Archive`, `ArchiveRoundTrip` | archive names, preflight, extraction and creation |
| `Cutover` | the installation saga and its rollback, with and without a schema change |

## How the models are built

An asynchronous object of the source is a class with the source's fields. Its
methods are the segments between two `await`s, and each `ensures` that the
fields become what a total function `Step` says. Runs are sequences of such
steps in any order the guards allow, so a theorem about runs covers every
interleaving; `PerformRun` drives the object itself through them.

Where several processes share a durable store, the method keeps the source's
control flow and calls `Yield` between two accesses. The contract of `Yield` is
everything the method knows about the others: it is their actions, any number of
them, as permitted by the same protocol. A lemma beside it shows that permitted
actions meet this contract (`ToolExecution.OthersMeetRely`,
`EmbeddingBoundary.OthersLeaveMe`, `SandboxStream.LegalCommitKeepsInv`).

Replies of ports are arbitrary (`*`, or part of the event), including calls that
fail after they took effect. A crash is an operation that does nothing more.

Assumptions about what lies outside:

- Digests of distinct values are distinct; a digest used as a key or binding is
  the value itself. Decoding what was encoded gives it back.
- `artifacts.commit` is put-if-absent. Equal content is a replay, other content
  is refused (`packages/persistence-sqlite/src/sqlite-run-payload-artifact-operations.ts:285-314`).
- A claim strictly raises the persisted fence, never lowers the revision, and is
  the only change to the persisted deployment. Lease identifiers are fresh.
- The network targets of an approved grant do not change.

## Results that a reader may not expect

- **A start during overlapping stops loses a lease.** A second `stop()` that
  arrives while the first one waits for its release ends at once; a new start can
  then activate, and the end of the first stop declares the lifecycle stopped
  while the new lease is held. Accounting holds for exactly the callers that
  overlap no stops, or begin no start while a stop is in flight
  (`AuthoritySafety.AccountingNeedsCare`). Without such a start, any number of
  stops may overlap. The mirror stays recoverable for every caller.
- **A wakeup can overtake the recovery scan.** The comment at
  `apps/agent-service/src/production-run-dispatch-loop.ts:124-127` says that a
  wakeup during the initial scan is retained. With a dispatcher that has
  `recover`, it pumps at once. The model follows the code
  (`DispatchLoopSafety.ScanComesFirstWithoutRecovery`).
- **A rejected interruption skips the reconcile.** `renewal.stop()` awaits the
  interruption of the execution; if that promise rejects, the pump throws and
  the claimed run is not reconciled. In the record of calls this is the only way
  (`RunDispatcher.ProductionRunDispatcher.Serve`).
- **Embedding calls can both send.** `markStarted` on a slot that is started
  already succeeds as a replay, and the caller does not look at that. At most one
  physical request in every run is what exactly two kinds of callers get: those
  with one call at a time, and those of whose calls none begins while another has
  not got past its `markStarted` (`EmbeddingSlotsSafety.SendsOnceIffCareful`). Within one run, sends beyond
  the first are at most the starts that were answered as replays
  (`EmbeddingSlotsSafety.SendsAreBounded`).
- **One point of the installation-only cutover starts a service without an
  installation.** If an interrupt comes between the rename of the current
  installation and the assignment that records it, the rollback starts the old
  service although no installation is in place. The migrating form fails in its
  database restore at the same point, and starts nothing. It also leaves the old
  service stopped when the stop takes effect but its flag is not set, as after an
  interrupt or a stop command that times out
  (`scripts/operations/hermes-native-history-cutover.py:104`). With a full
  rollback the old service runs after every other fault (`Cutover.Host.Apply`).
- **Preflight is exact.** For names that are safe, unpacking collides if and
  only if some member lies at or inside another (`Archive.UnpackIffSeparate`).

## Model

| member | source | states |
|---|---|---|
| AuthorityLifecycle.ProductionAuthorityLifecycle.Start | apps/agent-service/src/production-authority-lifecycle.ts:312-328 | A start is refused while active, starting or draining; otherwise a new generation is starting and waits for the persisted deployment |
| AuthorityLifecycle.ProductionAuthorityLifecycle.ContinueStart | apps/agent-service/src/production-authority-lifecycle.ts:328-376 | Each segment of a start: what it checks, when it goes on, activates, or fails and first gives its claim back |
| AuthorityLifecycle.ProductionAuthorityLifecycle.Renew | apps/agent-service/src/production-authority-lifecycle.ts:379-398 | A renewal in flight is shared; a new one captures record and generation |
| AuthorityLifecycle.ProductionAuthorityLifecycle.ContinueRenew | apps/agent-service/src/production-authority-lifecycle.ts:399-450 | Each segment of a renewal, with its generation and identity checks and the loss of authority when a current one fails |
| AuthorityLifecycle.ProductionAuthorityLifecycle.ContinueCheck | apps/agent-service/src/production-authority-lifecycle.ts:269-310 | Each segment of assertActive: a current check that fails marks the authority lost, a superseded one changes nothing |
| AuthorityLifecycle.ProductionAuthorityLifecycle.Stop | apps/agent-service/src/production-authority-lifecycle.ts:468-478 | A stop ends the generation, drains, and waits for a renewal in flight |
| AuthorityLifecycle.ProductionAuthorityLifecycle.ReleaseHeld | apps/agent-service/src/production-authority-lifecycle.ts:479-491 | Record and authority are cleared before the release, which is only for a lease that was not lost |
| AuthorityLifecycle.ProductionAuthorityLifecycle.LoseAuthority | apps/agent-service/src/production-authority-lifecycle.ts:493-500 | Only an active authority is lost, and that ends its generation |
| AuthoritySafety.RunKeepsInv | apps/agent-service/src/production-authority-lifecycle.ts:269-530 | Every run of a caller with one of the two precautions, with any number of stops in flight, keeps the invariant that ties phase, record, authority, suspended operations and leases together |
| AuthoritySafety.AtRestEveryLeaseIsSettled | apps/agent-service/src/production-authority-lifecycle.ts:312-377 | For a careful caller (no overlapping stops, or no start during a stop): whenever nothing is in flight, the lifecycle is stopped, active or lost, and every lease ever claimed had a release attempted or was lost, but for the exposed one |
| AuthoritySafety.ActiveAuthorityIsHeld | apps/agent-service/src/production-authority-lifecycle.ts:175-202 | In every run of a careful caller, while active, record and authority agree on scope and fence, and the lease was claimed, not released and not lost |
| AuthoritySafety.ActivationEndsWithItsGeneration | apps/agent-service/src/production-authority-lifecycle.ts:493-530 | Each step of an active lifecycle keeps lease, fence and deployment or ends the generation |
| AuthoritySafety.FenceIsStable | apps/agent-service/src/production-authority-lifecycle.ts:502-530 | Over any run of a careful caller, one activation exposes one fencing token and one lease until its generation ends |
| AuthoritySafety.SupersededOperationsAreInert | apps/agent-service/src/production-authority-lifecycle.ts:305-309 | For every caller, an operation whose generation has passed changes no phase, record, authority or generation |
| AuthoritySafety.SupersededStartGivesItsLeaseBack | apps/agent-service/src/production-authority-lifecycle.ts:361-376 | In every run of a careful caller, a start superseded after its claim has attempted the release of its own lease when it ends, and that lease is never exposed |
| AuthoritySafety.OverlappingStopsOrphanALease | apps/agent-service/src/production-authority-lifecycle.ts:468-491 | For every caller that takes neither precaution, a concrete run leaves a claimed lease neither released nor lost in a stopped lifecycle |
| AuthoritySafety.AccountingNeedsCare | apps/agent-service/src/production-authority-lifecycle.ts:312-491 | Lease accounting holds over all runs of a caller if and only if the caller overlaps no two stops, or begins no start while a stop is in flight |
| AuthoritySafety.PerformRun | apps/agent-service/src/production-authority-lifecycle.ts:269-530 | The object, driven through any run of a careful caller, goes through the states of the model and keeps the invariant |
| AuthorityMirror.SystemRunKeepsInv | apps/agent-service/src/production-authority-lifecycle.ts:328-360 | The invariant of service, disk and pending calls is kept over all runs of every caller, with overlapping stops and starts, crashes anywhere and claims by other services in between |
| AuthorityMirror.HistoryIsOrdered | apps/agent-service/src/production-authority-lifecycle.ts:136-163 | Two values the deployment ever had are ordered by fence and revision together, and equal fences mean equal values |
| AuthorityMirror.MirrorIsAlwaysRecoverable | apps/agent-service/src/production-authority-lifecycle.ts:333-335 | For every caller, after any number of crashes, and whoever else claims, the mirror is some past persisted value, and the mirror check of a current start accepts it |
| AuthorityMirror.UncontestedStartPublishesTheFence | apps/agent-service/src/production-authority-lifecycle.ts:345-359 | An undisturbed start that becomes active leaves mirror, persisted deployment and exposed fence equal |
| DispatchLoop.ProductionRunDispatchLoop.Start | apps/agent-service/src/production-run-dispatch-loop.ts:128-174 | Starting opens the loop and runs the recovery or the initial pump; a drained loop cannot start again |
| DispatchLoop.ProductionRunDispatchLoop.RequestWakeup | apps/agent-service/src/production-run-dispatch-loop.ts:212-220 | A request is accepted exactly while open, and a refused one changes nothing |
| DispatchLoop.ProductionRunDispatchLoop.RequestPump | apps/agent-service/src/production-run-dispatch-loop.ts:222-260 | A pump starts only if none is active; otherwise one wakeup is retained with its first phase |
| DispatchLoop.ProductionRunDispatchLoop.FinishPump | apps/agent-service/src/production-run-dispatch-loop.ts:262-275 | The retained wakeup is taken up when the active pump is finished |
| DispatchLoop.ProductionRunDispatchLoop.FailAt | apps/agent-service/src/production-run-dispatch-loop.ts:292-306 | The first failure closes the loop, later ones change nothing |
| DispatchLoop.ProductionRunDispatchLoop.ContinueStop | apps/agent-service/src/production-run-dispatch-loop.ts:308-333 | A drained stop is recorded only after the pump queue was seen empty |
| DispatchLoopSafety.SingleFlight | apps/agent-service/src/production-run-dispatch-loop.ts:236-260 | In every run at most one pump call has not settled |
| DispatchLoopSafety.EveryRequestIsServed | apps/agent-service/src/production-run-dispatch-loop.ts:212-275 | Unless the loop failed, once no pump is active every accepted request was followed by a pump that started after it; pumps are at most requests plus one |
| DispatchLoopSafety.RetainedWakeupStartsNext | apps/agent-service/src/production-run-dispatch-loop.ts:262-275 | A retained wakeup starts its pump as the next thing after the active pump |
| DispatchLoopSafety.FailureIsFinal | apps/agent-service/src/production-run-dispatch-loop.ts:292-306 | After a failure the first failure stands, nothing is accepted and no pump starts, in every continuation |
| DispatchLoopSafety.DrainedStopIsFinal | apps/agent-service/src/production-run-dispatch-loop.ts:308-333 | After a drained stop no pump is active or retained and none ever starts |
| DispatchLoopSafety.PumpOvertakesRecovery | apps/agent-service/src/production-run-dispatch-loop.ts:148-156 | With a recovering dispatcher, a wakeup while starting pumps before the recovery ended |
| DispatchLoopSafety.ScanComesFirstWithoutRecovery | apps/agent-service/src/production-run-dispatch-loop.ts:124-163 | The startup scan comes before any other pump in all runs if and only if the dispatcher has no recovery |
| DispatchLoopSafety.PumpsDuringRecovery | apps/agent-service/src/production-run-dispatch-loop.ts:212-260 | In every reachable state with the recovery running, a pump has started if and only if a request was accepted |
| DispatchLoopSafety.PerformRun | apps/agent-service/src/production-run-dispatch-loop.ts:128-333 | The object, driven through any run, goes through the states of the model and keeps the invariant |
| RunDispatch.ClaimsBalance | apps/agent-service/src/production-run-dispatcher.ts:304-448 | In every record of calls that follows the protocol, claims are settled plus unknown plus the one still held |
| RunDispatch.ReleaseIsEarned | apps/agent-service/src/production-run-dispatcher.ts:349-446 | Every release is of a lease claimed before, by identifier and revision, and since that claim the Run settled or its reconcile completed |
| RunDispatch.ReconcileUsesTheClaim | apps/agent-service/src/production-run-dispatcher.ts:546-558 | Every reconcile under a lease is for the claimed candidate with the identifier and revision of its claim |
| RunDispatch.AdriftWasTried | apps/agent-service/src/production-run-dispatcher.ts:429-446 | A Run the pump leaves adrift had a reconcile attempted under its lease since its claim |
| RunDispatch.RejectionIsRecorded | apps/agent-service/src/production-run-dispatcher.ts:482-489 | The record of calls shows a rejected interruption after the last claim if and only if the protocol state says so |
| RunDispatch.RejectionStrandsTheRun | apps/agent-service/src/production-run-dispatcher.ts:429-431 | After any legal record, a claim whose interruption is rejected is legal and leaves the Run in hand |
| RunDispatch.StrandedShowsTheRejection | apps/agent-service/src/production-run-dispatcher.ts:429-431 | That record shows the rejection, and no reconcile since the claim |
| RunDispatcher.LeaseRenewal.Tick | apps/agent-service/src/production-run-dispatcher.ts:461-494 | A tick changes nothing after a stop or a failure, adopts only a lease of the same identity, and otherwise fails |
| RunDispatcher.LeaseRenewal.Stop | apps/agent-service/src/production-run-dispatcher.ts:500-505 | After the stop no tick changes anything; it throws exactly if the interruption was rejected |
| RunDispatcher.ProductionRunDispatcher.Await | apps/agent-service/src/production-run-dispatcher.ts:461-494 | While something else is awaited, the record tells of a failed renewal and of what its interruption came to |
| RunDispatcher.ProductionRunDispatcher.ExecuteRun | apps/agent-service/src/production-run-dispatcher.ts:376-428 | From the execution on, a Run ends settled only if it returned a settling status under a renewed lease, unknown, or with an exception whose effect is known |
| RunDispatcher.ProductionRunDispatcher.Recover | apps/agent-service/src/production-run-dispatcher.ts:429-446 | Unless it was attempted, the handler attempts the reconcile, also for a settled Run whose release failed; it skips it exactly if the interruption was rejected |
| RunDispatcher.ProductionRunDispatcher.Serve | apps/agent-service/src/production-run-dispatcher.ts:308-447 | One candidate is a conflict, settled, unknown or adrift after an attempted reconcile; a claimed Run is left untouched exactly if the record shows that its interruption was rejected |
| RunDispatcher.ProductionRunDispatcher.RecoverLeftovers | apps/agent-service/src/production-run-dispatcher.ts:236-255 | The calls are the reconciles of a prefix of the leftovers, in order; it is all of them while the dispatcher accepts and nothing fails |
| RunDispatcher.ProductionRunDispatcher.Pump | apps/agent-service/src/production-run-dispatcher.ts:273-449 | All calls of a pump follow the protocol and begin with the leftovers; its counters are those of its calls, with claimed equal to settled plus unknown and claimed plus conflicts at most the candidates; it leaves a claimed Run untouched exactly if the record shows a rejected interruption |
| SandboxStream.LegalCommitKeepsInv | apps/agent-service/src/production-sandbox-stream.ts:47-62 | A permitted commit of a new key keeps the store invariant and everything stored |
| SandboxStream.ChunksAreContiguous | apps/agent-service/src/production-sandbox-stream.ts:82-100 | Chunks occupy all indices from zero, each at the sum of the earlier lengths, index at most offset, total within the plan's limit |
| SandboxStream.FinalChunkIsLast | apps/agent-service/src/production-sandbox-stream.ts:92-99 | At most one chunk is final, and it is the last |
| SandboxStream.TerminalRecordIsFinalChunk | apps/agent-service/src/production-sandbox-stream.ts:101-102 | A terminal record is that final chunk |
| SandboxStream.PollAdvances | apps/agent-service/src/production-sandbox-stream.ts:134-144 | A page is what follows its cursor, the next cursor follows the page and may be issued, and only the end of the stream is reported as the end |
| SandboxStream.ReadersSeeTheStream | apps/agent-service/src/production-sandbox-stream.ts:104-169 | Whatever is appended between polls and whatever the limits, the pages along a cursor chain are the stream up to the cursor, no cursor is refused, and at the end they are the whole stream |
| SandboxStream.PollMakesProgress | apps/agent-service/src/production-sandbox-stream.ts:134-144 | On a finished stream each poll ends or strictly decreases remaining bytes plus remaining chunks |
| SandboxStream.PollingTerminates | apps/agent-service/src/production-sandbox-stream.ts:134-144 | On a finished stream more polls than remaining bytes and chunks reach the end, with varying limits and other writers |
| SandboxStream.PositionsPrecedeTheEnd | apps/agent-service/src/production-sandbox-stream.ts:109-136 | What any cursor has read is a prefix of the whole stream |
| SandboxStreamStore.ProductionSandboxStream.Save | apps/agent-service/src/production-sandbox-stream.ts:47-62 | A save succeeds only if the value is what is stored, and conflicts only if another value is; the read-back never finds a committed value changed |
| SandboxStreamStore.ProductionSandboxStream.Append | apps/agent-service/src/production-sandbox-stream.ts:78-103 | An acknowledged chunk is stored, a final one with its terminal record; each refusal has its cause; with working ports a chunk in its place is taken exactly if no other chunk holds it, and appending a stored chunk again restores the terminal record |
| SandboxStreamStore.ProductionSandboxStream.Output | apps/agent-service/src/production-sandbox-stream.ts:104-169 | The page is a poll of the cursor's position in one state during the call, its next cursor is stored, and an issued cursor is refused only by a failing port |
| SandboxStreamStore.ProductionSandboxStream.GetTermination | apps/agent-service/src/production-sandbox-stream.ts:72-77 | A reported termination is the one of the final chunk and does not change |
| SandboxOutput.TurnContinues | apps/agent-service/src/production-sandbox-output.ts:102-106 | A page is what follows its cursor, the next cursor follows the page, and the end is reported exactly at the last byte |
| SandboxOutput.PagesAreTheOutput | apps/agent-service/src/production-sandbox-output.ts:66-119 | Along any chain of cursors with any limits the pages are a prefix of the stored bytes, no cursor is refused, and at the end they are all of them |
| SandboxOutput.PagingTerminates | apps/agent-service/src/production-sandbox-output.ts:102-106 | More polls than bytes left reach the end, also of an empty output |
| SandboxOutput.ProductionSandboxOutput.Output | apps/agent-service/src/production-sandbox-output.ts:30-144 | The reply is the page of the cursor in the intact output, its next cursor is stored, there is none before a result, and an issued cursor is refused only if something failed |
| ToolExecution.SameExecutionIffResumed | apps/agent-service/src/production-runtime-tools.ts:74-88 | Two invocations have the same execution identity if and only if they differ only in lease and continuation under the same deployment, epoch and fence |
| ToolExecution.AtMostOnce | apps/agent-service/src/production-runtime-tools.ts:552-680 | Over any history of calls, replays and restarts the request is dispatched at most once, by the call whose intent commit was not a replay |
| ToolExecution.OthersMeetRely | apps/agent-service/src/production-runtime-tools.ts:647-653 | Whatever other calls do, records are not replaced and only the author dispatches or records |
| ToolExecution.RunsKeepInv | packages/persistence-sqlite/src/sqlite-run-payload-artifact-operations.ts:285-314 | Intent, author and result are never replaced once they exist |
| RuntimeTools.ProductionRuntimeTools.Execute | apps/agent-service/src/production-runtime-tools.ts:552-797 | An answer needs an intent of the same execution and is unknown or the recorded result; a call that finds an intent neither dispatches nor records; its author dispatched once if the Run was active, and not otherwise; the body calls itself at most once |
| RuntimeTools.ProductionRuntimeTools.DispatchAndFollow | apps/agent-service/src/production-runtime-tools.ts:670-793 | An outcome from inside the attempt is recorded before it is returned, and the request is dispatched once exactly if the Run is active |
| RuntimeTools.ProductionRuntimeTools.Own | apps/agent-service/src/production-runtime-tools.ts:657-797 | The author answers only with what it recorded, the unknown outcome if the attempt failed |
| RuntimeTools.ProductionRuntimeTools.Replay | apps/agent-service/src/production-runtime-tools.ts:565-589 | Another identity is always a conflict; otherwise the answer is the record, or unknown while there is none, or a refusal |
| RuntimeTools.ProductionRuntimeTools.WriteIntent | apps/agent-service/src/production-runtime-tools.ts:828-844 | A fresh intent makes its writer the author; an equal one is a replay; a refused write may have taken effect |
| RuntimeTools.ProductionRuntimeTools.Admit | apps/agent-service/src/production-runtime-tools.ts:393-412 | While a call is in flight, the same attempt shares its result and any other is refused; a body starts only when none is running |
| RuntimeTools.ProductionRuntimeTools.ExecuteCanonical | apps/agent-service/src/production-runtime-tools.ts:393-412 | An attempt runs the execution body only if no body of this tool call runs in the process, and then replies as the body does; otherwise it joins or is refused and changes nothing |
| RuntimeTools.RecordSurvives | apps/agent-service/src/production-runtime-tools.ts:775-795 | A recorded result is never replaced, also when disclosing it failed |
| SandboxAdmissions.ChildAttenuates | apps/agent-service/src/production-sandbox-services.ts:741-914 | A child plan of either version has no later deadline, higher ceiling, further operation or domain, or other host than its parent |
| SandboxAdmissions.ExceedsIffTooWide | apps/agent-service/src/production-sandbox-services.ts:753-825 | A version 2 child that would resolve is refused as too wide if and only if it asks for more than its parent has |
| SandboxAdmissions.AdmissionsNest | apps/agent-service/src/production-sandbox-services.ts:721-914 | After any sequence of admissions, each child attenuates its parent, which came before it |
| SandboxAdmissions.AuthorityOnlyShrinks | apps/agent-service/src/production-sandbox-services.ts:741-914 | At any depth, an admission attenuates every admission above it |
| SandboxAdmissions.DescendantsNeedTheLiveGrant | packages/application/src/services/sandbox-scope-service.ts:105-125 | A descendant resolves only while the host's live grant of its ancestor is not revoked, covers its operations and outlasts its deadline |
| EmbeddingSlotsSafety.StepKeepsInv | apps/agent-service/src/production-run-memory.ts:92-209 | Every step of every call keeps slots, calls and ledger consistent |
| EmbeddingSlotsSafety.SlotsAreUsedInOrder | apps/agent-service/src/production-run-memory.ts:116-131 | At most 32 slots are used, and all before a used one were released; no other state is stepped over |
| EmbeddingSlotsSafety.StartedIsNeverReleased | packages/persistence-sqlite/src/sqlite-model-budget-operations.ts:825-860 | A slot under which a request may have been sent is never released, and a released one stays so |
| EmbeddingSlotsSafety.SendsAreBracketed | apps/agent-service/src/production-run-memory.ts:181-186 | Each send follows its call's markStarted, is its only one, and happens under a started slot |
| EmbeddingSlotsSafety.SendsAreClosed | apps/agent-service/src/production-run-memory.ts:196-208 | In every run, a call that sent and is no longer at work has settled, tried to mark its slot as unknown, or crashed, after its send |
| EmbeddingSlotsSafety.SendsAreBounded | packages/persistence-sqlite/src/sqlite-model-budget-operations.ts:658-691 | However calls overlap, crash and fail, sends are at most one plus the number of calls whose markStarted was a replay |
| EmbeddingSlotsSafety.CarefulCallsSendOnce | apps/agent-service/src/production-run-memory.ts:92-209 | Calls that do not overlap, or of which none begins before the others got past markStarted, send at most once over all crashes |
| EmbeddingSlotsSafety.OverlappingCallsSendTwice | apps/agent-service/src/production-run-memory.ts:132-136 | For every policy that takes neither precaution, a concrete run in which two calls send |
| EmbeddingSlotsSafety.SendsOnceIffCareful | apps/agent-service/src/production-run-memory.ts:92-209 | At most one request is sent over all runs of a policy if and only if it has one call at work at a time, or lets none begin while another has not got past markStarted |
| EmbeddingBoundary.OthersLeaveMe | packages/persistence-sqlite/src/sqlite-model-budget-operations.ts:513-691 | No step of another call changes where a call stands or whether it may send |
| EmbeddingBoundary.EmbeddingBoundary.FindSlot | apps/agent-service/src/production-run-memory.ts:116-131 | The scan ends holding a reserved slot among the 32, or with the call over |
| EmbeddingBoundary.EmbeddingBoundary.SendAndReckon | apps/agent-service/src/production-run-memory.ts:183-207 | A send under a started slot is followed by the settlement of that slot or by the attempt to mark it as unknown |
| EmbeddingBoundary.EmbeddingBoundary.Embed | apps/agent-service/src/production-run-memory.ts:92-209 | What all calls do stays one growing run of the slot protocol; this call ends, after a send it settled or tried to mark its slot as unknown at a later step, and it answers only after it settled the slot it sent under |
| ExecutionAdmission.AdmissionHandler.Check | apps/agent-service/src/production-execution-admission-handler.ts:358-381 | Two looks at the parent saw the same change of the registry, two looks at the peer the same peer, and the request fits both |
| ExecutionAdmission.AdmissionHandler.Recheck | apps/agent-service/src/production-execution-admission-handler.ts:390-422 | No objection means that the looks after the admission saw the same change and the same peer as those before it |
| ExecutionAdmission.AdmissionHandler.Admit | apps/agent-service/src/production-execution-admission-handler.ts:349-438 | Consumed or replayed means exactly three looks at parent and peer around one admission call, all meeting the same change of the registry and the same peer, which the request fits; errors other than a failed admission mean the service was not called, every other answer that it was called once |
| ExecutionAdmission.SameMeansUnchanged | apps/agent-service/src/production-execution-admission-handler.ts:181-198 | With rising revisions, equal bindings are the same change |
| ExecutionAdmission.RevisionsAreNeeded | apps/agent-service/src/production-execution-admission-handler.ts:181-198 | Without them, a binding that went away and came back passes the comparison |
| ArchiveTree.SplitOfJoin | scripts/ci/artifact-archive.py:13-19 | A name splits into the parts it was made of |
| Archive.Preflight | scripts/ci/artifact-archive.py:43-64 | An archive is accepted if and only if it is not empty, all members are regular, safely named, safely permitted and separate, and their size is within the limit; each refusal names what is wrong |
| Archive.SeparateIffNoneUnder | scripts/ci/artifact-archive.py:61-63 | Looking up the parent paths of every name finds exactly the members that lie inside others |
| Archive.UnpackIffSeparate | scripts/ci/artifact-archive.py:84-89 | Unpacking meets no existing target and no file in a directory's place if and only if members are separate, and then the tree is exactly the members |
| Archive.OrderDoesNotMatter | scripts/ci/artifact-archive.py:84-89 | An accepted archive unpacks in every order to the same tree |
| Archive.Extract | scripts/ci/artifact-archive.py:77-92 | Extraction leaves the whole archive or nothing, and fails only for an existing target, a refused archive or an input/output error |
| ArchiveRoundTrip.Create | scripts/ci/artifact-archive.py:22-40 | Creation succeeds if and only if the scan meets no link, no special file and no unsafe name, and then has one member per regular file |
| ArchiveRoundTrip.AcceptedIffPortable | scripts/ci/artifact-archive.py:22-64 | A created archive is accepted if and only if its source has a file, safe modes, no second hard link and a size within the limit |
| ArchiveRoundTrip.RoundTrip | scripts/ci/artifact-archive.py:22-92 | Unpacking the archive of a portable tree gives back the same files, contents and modes, and no others |
| Cutover.Host.Forward | scripts/operations/hermes-native-history-cutover.py:104-139 | The state of all parts and flags after any number of forward steps, of either form |
| Cutover.Host.Recover | scripts/operations/hermes-native-history-cutover.py:145-168 | After the new start was decided on nothing is rolled back and the service is stopped; before it, the old service is started on the restored parts, or nothing is and it runs exactly if it ran before |
| Cutover.Host.Apply | scripts/operations/hermes-source-links-cutover.py:99-165 | For a fault at any forward step and any rollback step, every start meets coherent parts, except exactly for the installation-only form between the rename and its flag; after a full rollback the old service runs, except exactly for two points of the migrating form |

## Left out

- HTTP, tokens, cookies, composition, the admin CLI, journals and lease tables: plumbing over code that is not shown.
- Wall-clock timers, abort signals and deadlines: they are events, arbitrary replies or bounds on a list of events.
- Error codes and messages where the source only passes them on; `AuthorityLifecycle` has one reply for every rejection.
- AuthorityLifecycle: a claim that took effect but was reported as failed is not a lease the lifecycle knows of, so accounting does not cover it.
- DispatchLoop: a dispatcher that calls `stop` from inside its own `drain` is not modelled.
- The in-flight set, `drain` and the shared promise of the dispatcher's own `pump`: the loop above already has single flight.
- RuntimeTools: one tool call at a time; the maps of exposed handles and parent bindings, the workflows for files and coding, and the construction of the request are not modelled.
- SandboxStreamStore: encryption, payload limits and canonical base64 (section 3.5 of RFC 4648) are not modelled; chunks are byte sequences.
- SandboxOutput: text that does not have the form of a cursor, and limits on the size of payloads, only add refusals.
- SandboxAdmissions: `stopRun`, `stopRecord`, qualification records, workspace claims, and the third resolution of a version 1 plan, which can only refuse; a child is modelled with one parent of its own version, as the source looks it up.
- EmbeddingSlots: amounts, limits and accounts of the budget; they only add refusals. Calls bound to a Run go through a gate that is not part of this model.
- ExecutionAdmission: the receipt comparison is one arbitrary answer; peers carry no revision, so a peer that changed and changed back between two looks is not excluded.
- Archive: the tar and gzip encodings, symbolic links in the target's own path, and empty directories, which an archive does not carry.
- Cutover: qualification, digests and log polling before and after the saga; evidence copies count as one rollback step.
