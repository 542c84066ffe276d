# PixelFlow Gateway: a Dafny model of its stateful protocols

The PixelFlow Gateway coordinates conversations, agent runs, billable tools and media jobs through repositories that many
coroutines, workers and restarted processes use at once. This project models those protocols and proves what they keep over
every interleaving; crashes, retries, lease takeovers and other clients come between steps.

What counts as one step follows the source. A section under an asyncio lock or without a suspension point, a transaction that
locks its rows (`generation_jobs`) and an insert guarded by a primary key are one step. Transactions on interrupts, recovery
records and Mem0 writes read their row without a lock and write it at the end, so they are two steps, and others may come
between; an update sets the columns that differ from what was read.

Each protocol has up to three layers: specification functions on a datatype state, theorems over arbitrary runs of steps, and
classes whose methods update their fields as the source does and are proved equal to the specification. What the
specification functions themselves achieve is stated apart from them, on stored fields, histories and whole requests.

- `Common`: result shapes; identifiers are opaque and stand as natural numbers, time is an integer passed in.
- `CompactionState`, `Inbox`, `CompactionRuns`, `CompactionTheorems`, `CompactionLeases`, `CompletionOrder`,
  `CompactionLimits`, `CompactionRepository`: compaction leases with fencing tokens over the Turn inbox.
- `Interrupts`, `InterruptTransactions`, `ToolLedger`, `ToolBrokerSteps`, `ToolBrokerOnce`, `ToolBrokerProvenance`,
  `ToolBrokerGuards`, `ToolBrokerAnswers`, `ToolBrokerRequests`, `AgentToolRepository`, `AgentToolBroker`: the tool call
  ledger, human interrupts, and the broker that claims, checks, executes and completes. `ToolBrokerSteps` cuts a call into one repository operation per
  step.
- `HarnessSidecar`, `HarnessResume`, `HarnessRequests`, `HarnessRecovery`, `HarnessRecoveryService`: the endpoints that answer
  interrupts and start resumed runs, and run recovery.
- `GenerationJobState`, `GenerationJobReactions`, `GenerationJobRuns`, `GenerationJobOutcomes`, `GenerationJobFairness`,
  `GenerationJobReopening`, `GenerationJobRepository`, `GenerationJobWorker`: the job lease state machine and the worker that
  drives it.
- `EventLog`, `EventProjection`, `EventProgress`, `EventStream`, `EventRepository`: the event Outbox, its projectors and
  publishers, and the polling readers.
- `MemoryWriteState`, `MemoryWriteRuns`, `MemoryWriteVerdicts`, `MemoryWriteDelivery`: the Mem0 write Outbox.
- `DraftRecords`, `DraftPatch`, `ConversationRevisions`, `ConversationPages`: the conversation store.
- `SceneProjection`: finished video jobs written into a workspace's scenes.

`dafny verify dfyconfig.toml` checks all of it.

## Where the code and its promises differ

The code is modelled as it is. These are the places where it does not do what its text or its names suggest, with the exact
condition and, where something fails, a run in which it does.

- `complete_turn_and_claim_next` promises the next turn in Inbox order but sorts by `(created_at, turn_id)`
  (`CompletionOrder.CompletionsFollowInboxIff`, `CompactionLimits.LateCreationOvertakes`).
- Two owners in one conversation can strand queued turns (`CompactionLimits.CallStrandsIff`,
  `CompactionLimits.SecondOwnerStrandsFirst`); the queue theorems are for one owner per conversation.
- `respond_interrupt` is meant to accept one response and `bind_interrupt_resume_run` one run, but nothing keeps two of their
  transactions from overlapping, and the later one then replaces what the earlier one wrote
  (`InterruptTransactions.WriteOnceIff`, `InterruptTransactions.OverlappingAnswersOverwrite`). One confirmation can so start
  two runs (`HarnessResume.OverlappingAnswersResumeTwice`). The theorems of `HarnessResume` are for the runs in which no
  transaction overwrites so; an overlapping retry does not (`InterruptTransactions.OverlappingRetryIsHarmless`).
- `/confirmations` does not look at the interrupt's kind, so an interrupt of another kind can be resumed under a second key
  (`HarnessResume.SameKeyIff`, `HarnessResume.ConfirmingAnAuthorizationResumesTwice`).
- `_complete_rejection` is documented as closing every rejection after the claim, but an unknown tool and an unconfirmed cost
  without a confirmation boundary return without storing (`ToolBrokerOnce.RejectedUnstoredIff`,
  `ToolBrokerOnce.UnknownToolNeverAnswers`).
- A recovery decided as manual review can turn into created, and callers can be told different decisions
  (`HarnessRecovery.DecisionChangesIff`, `HarnessRecovery.AnswersDifferOnlyIf`, `HarnessRecovery.BindOverReviewHappens`).
- A recovery run may exist that no record names (`HarnessRecovery.OrphanIff`, `HarnessRecovery.OrphanHappens`).
- A Mem0 write can be added twice without anybody's request when two workers select it at once
  (`MemoryWriteRuns.AddsAreBounded`, `MemoryWriteRuns.TwoWorkersAddTwice`).
- The worker turns provider timeouts, expiries and paused quotas into `failed`, so the statuses `timeout` and `expired` never
  occur (`GenerationJobRuns.RunKeepsContract`).
- The event stream may end without sending an event that arrived between its last poll and the closing snapshot
  (`EventStream.EndedStreamIsCompleteIff`, `EventStream.LateClosingIsNeverSent`).
- The draft phase can say succeeded without a successful record (`DraftPatch.PhaseIsUnbackedIff`,
  `DraftPatch.SuccessWithoutRecord`).
- A conversation id with a bar, or a creation time not in normal form, can break the page cursor
  (`ConversationPages.CursorRoundTripIff`, `ConversationPages.PagingIsExactIff`, `ConversationPages.UnreadableCursorLoops`).

## Assumptions

- Digests are injective and stand for what they hash: a tool call key for (run, call), an interrupt id for its tool call key,
  a request digest for its fields, a `run_request_key` for (trigger type, trigger id). Run ids hold no colon.
- uuid4 never repeats: lease tokens and Sidecar run ids are new when handed out. Sidecar event ids are never reused and never
  equal a publisher's digest, and a replayed Sidecar stream repeats the same events in the same order.
- A transaction reads a row once and sees what was committed before; its writes appear at its end, all at once, and the
  table's unique and check constraints are checked then.
- A tool call ledger row is completed by the one process that inserted it (`ToolBrokerOnce.ExecutorStartsAtMostOnce` shows
  that there is one), so `claim_tool_call` and `complete_tool_call` are one step each; so is the insert of a run binding,
  whose row never changes.
- A conversation has one owner in the queue and Outbox theorems.

## Model

| member | source | states |
|---|---|---|
| Inbox.MoveKeepsExclusion | backend/pixelflow/agent_control_plane/persistence/compaction_queue.py:287-546 | every move of a conversation's inbox keeps: a lease excludes accepted and processing turns, at most one turn processes, and without a lease queued turns wait behind an executing one |
| Inbox.MoveKeepsFifo | backend/pixelflow/agent_control_plane/persistence/compaction_queue.py:436-485 | every move keeps completion in arrival order, given that arrivals carry growing (created_at, turn_id) |
| CompactionRuns.CallMovesInbox | backend/pixelflow/agent_control_plane/persistence/compaction_queue.py:287-546 | each repository call is one of the inbox moves on its own conversation |
| CompactionRuns.OtherInboxesUntouched | backend/pixelflow/agent_control_plane/persistence/compaction_queue.py:287-546 | a call leaves every other conversation's inbox as it is |
| CompactionRuns.RunKeepsInvariant | backend/pixelflow/agent_control_plane/persistence/compaction_queue.py:217-648 | the queue invariant holds in every state that any legal run of calls reaches |
| CompactionRuns.RunIsExclusive | backend/pixelflow/agent_control_plane/persistence/compaction_queue.py:287-546 | from the empty repository, for one owner per conversation: a lease excludes execution, at most one turn processes, nothing is stranded, and the already-processing refusal of a finishing call never happens |
| CompactionTheorems.RunIsFirstInFirstOut | backend/pixelflow/agent_control_plane/persistence/compaction_queue.py:436-485 | over whole runs with demotions, replayed completions and hand-overs: whatever arrived before a completed turn is completed |
| CompactionTheorems.RunNeverGoesBack | backend/pixelflow/agent_control_plane/persistence/compaction_queue.py:287-485 | over whole runs a turn keeps its content and its inbox sequence, and its progress never falls |
| CompactionTheorems.RetiredIsFencedOff | backend/pixelflow/agent_control_plane/persistence/compaction_queue.py:312-334 | after any legal history from the empty repository: once a call takes over the lease that carries a token, or a finish gives it up, no later call of the run that carries the token changes leases, turns or events |
| CompactionTheorems.TokenReleasesAtMostOnce | backend/pixelflow/agent_control_plane/persistence/compaction_queue.py:511-546 | over every run a token releases a conversation at most once |
| CompactionTheorems.FinishWithEventRefinesFinish | backend/pixelflow/agent_control_plane/persistence/compaction_queue.py:548-648 | finish_compaction_with_event succeeds exactly when finish does and the event can be logged, gives the same leases, turns and claimed turn plus one event numbered one past the conversation's maximum, and any error changes nothing |
| CompactionLeases.AcquireGrantsIff | backend/pixelflow/agent_control_plane/persistence/compaction_queue.py:287-334 | a lease is answered if and only if the expiry asked for lies ahead, no unexpired and no foreign lease is held and nothing processes; the lease answered is the stored one, with the caller's worker, token and expiry, and accepted turns are queued; otherwise nothing changes |
| CompactionLeases.LeasesAfter | backend/pixelflow/agent_control_plane/persistence/compaction_queue.py:287-648 | for every call and state, what becomes of every lease: granted, dropped, postponed under its own owner, worker and unexpired token, or untouched |
| CompactionLeases.LeaseStaysUntil | backend/pixelflow/agent_control_plane/persistence/compaction_queue.py:313-314 | over every run a lease stays exactly as it is until it expires, unless a finish under its own worker and token gives it up or postpones it |
| CompactionLeases.UnexpiredLeaseIsExclusive | backend/pixelflow/agent_control_plane/persistence/compaction_queue.py:312-334 | over every run no two unexpired leases of a conversation are granted: a grant before the expiry of an earlier one comes only after the earlier worker gave its lease up or postponed it |
| CompactionLeases.EnqueueIsIdempotent | backend/pixelflow/agent_control_plane/persistence/compaction_queue.py:389-394 | once a turn was enqueued, then after any run of calls the same client input is answered with that turn as it stands, and nothing changes |
| CompactionLeases.EnqueueAnswers | backend/pixelflow/agent_control_plane/persistence/compaction_queue.py:352-398 | when enqueueing raises and why; a new turn is stored last in the inbox, queued if a lease is held or something executes and accepted otherwise; a known input is read back |
| CompactionLeases.ClaimAnswers | backend/pixelflow/agent_control_plane/persistence/compaction_queue.py:400-416 | None exactly under a lease, behind a processing turn or when nothing waits; otherwise the answered turn is the first arrival, as it is stored, processing |
| CompactionLeases.CompletionAnswers | backend/pixelflow/agent_control_plane/persistence/compaction_queue.py:436-485 | which turns can be completed; the completed turn and the successor that are answered are the stored ones, and no other turn differs |
| CompactionLeases.FinishAnswers | backend/pixelflow/agent_control_plane/persistence/compaction_queue.py:511-546 | a finish succeeds exactly under its guards; a releasing one answers the first arrival as it is stored, processing, and None when nothing waits |
| CompletionOrder.CompletionsFollowInboxIff | backend/pixelflow/agent_control_plane/persistence/compaction_queue.py:418-485 | after any legal history, every series of completing calls completes the waiting turns in the order they arrived if and only if the conversation is leased, or (created_at, turn_id) grows with arrival among the turns that a hand-over may pass over; the docstring promises Inbox order without that condition |
| CompletionOrder.HandOverFollowsInboxIff | backend/pixelflow/agent_control_plane/persistence/compaction_queue.py:458-485 | one completing call claims the turn that a release or claim_next_turn would, the first arrival, if and only if no other candidate was created before that turn |
| CompactionLimits.LateCreationOvertakes | backend/pixelflow/agent_control_plane/persistence/compaction_queue.py:471-476 | a run from the empty repository with one owner in which the turn that arrived third but was created second is completed before the one that arrived second |
| CompactionLimits.CallStrandsIff | backend/pixelflow/agent_control_plane/persistence/compaction_queue.py:287-546 | of all calls in every state, one leaves an owner with waiting turns, nothing executing and no lease if and only if it is a claiming finish that passes its guards under another owner's lease while that owner has a waiting turn and executes none |
| CompactionLimits.SecondOwnerStrandsFirst | backend/pixelflow/agent_control_plane/persistence/compaction_queue.py:511-546 | a run from the empty repository, with two owners in one conversation, that ends with a stranded queued turn |
| CompactionRepository.MemoryCompactionQueueRepository.AcquireCompactionLease | backend/pixelflow/agent_control_plane/persistence/compaction_queue.py:287-334 | the whole repository after the call is what the lease rules give: refused, blocked, or leased with accepted turns demoted |
| CompactionRepository.MemoryCompactionQueueRepository.StoreTurn | backend/pixelflow/agent_control_plane/persistence/repositories.py:355-410 | a turn is stored under its owner with the next inbox sequence, or the call raises and nothing changes |
| CompactionRepository.MemoryCompactionQueueRepository.EnqueueTurnForExecution | backend/pixelflow/agent_control_plane/persistence/compaction_queue.py:352-398 | the turn is accepted only when nothing executes and no lease is held, queued otherwise; a known client input is read back |
| CompactionRepository.MemoryCompactionQueueRepository.ClaimNextTurn | backend/pixelflow/agent_control_plane/persistence/compaction_queue.py:400-416 | no claim under a lease; otherwise the oldest arrival starts unless a turn processes |
| CompactionRepository.MemoryCompactionQueueRepository.CompleteTurnAndClaimNext | backend/pixelflow/agent_control_plane/persistence/compaction_queue.py:418-485 | the turn completes and at most one successor starts; a replay completes nothing again and may start a successor |
| CompactionRepository.MemoryCompactionQueueRepository.FinishCompaction | backend/pixelflow/agent_control_plane/persistence/compaction_queue.py:487-546 | the lease is released and the oldest arrival starts, or the lease is postponed, only under the current token |
| CompactionRepository.MemoryCompactionQueueRepository.FinishCompactionWithEvent | backend/pixelflow/agent_control_plane/persistence/compaction_queue.py:548-648 | the dictionaries after the call are those of finishing plus the logged event |
| InterruptTransactions.RunIsWriteOnce | backend/pixelflow/agent_tools/repository.py:138-303 | over any run of transactions by any clients, overlaps included, in which none ends over an answer or a resumed run that came after it read the row: a row keeps its identity and payload, its response and content are written once, its resumed run is written once, and response ids and resumed runs are unique |
| InterruptTransactions.WriteOnceIff | backend/pixelflow/agent_tools/repository.py:219-303 | for every run, overlaps included: what is written stays written throughout exactly when no transaction ends over an answer, or over a resumed run, that came after it read the row |
| InterruptTransactions.OverlappingAnswersOverwrite | backend/pixelflow/agent_tools/repository.py:219-251 | a run from the empty table in which two clients answer one interrupt at once, both are told that theirs is the answer, and the second replaces the first |
| InterruptTransactions.OverlappingRetryIsHarmless | backend/pixelflow/agent_tools/repository.py:138-303 | a retry may overlap with the call it repeats: of two transactions of one call that read the same row the second overwrites and changes nothing |
| InterruptTransactions.GrantsStay | backend/pixelflow/agent_tools/repository.py:194-217 | in a run in which nothing is overwritten a readable confirmation grant stays readable |
| InterruptTransactions.OverlappingBindsLoseGrant | backend/pixelflow/agent_tools/repository.py:286-303 | two overlapping binds of one answered interrupt take the grant from the run that was bound first |
| InterruptTransactions.OnlyOwnersAnswer | backend/pixelflow/agent_tools/repository.py:229-251 | as long as nobody with the interrupt's own binding and a recent enough workspace answers or closes it, no run of transactions moves it, however they overlap |
| Interrupts.RepliedAs | backend/pixelflow/agent_tools/repository.py:229-251 | for an undisturbed answer, on the columns: accepted exactly from the interrupt's own run as the first answer to an open row under a new response id, which stores it, or as a repeat of the stored answer, which changes nothing |
| Interrupts.ClosedAs | backend/pixelflow/agent_tools/repository.py:253-284 | the same for closing a form |
| Interrupts.AnsweredRunIsGranted | backend/pixelflow/agent_tools/repository.py:138-303 | an interrupt raised for a tool, answered by its own run and bound to a new run grants the tool to that run, whatever else is in the table |
| ToolBrokerProvenance.GrantedIsConfirmed | backend/pixelflow/agent_tools/repository.py:194-217 | a grant is always backed by a chain of interrupts, each of which was bound to the run of the next, back to a confirmation of the same tool |
| ToolBrokerProvenance.EndKeepsBacked | backend/pixelflow/agent_tools/repository.py:138-303 | every interrupt that claims its tool was confirmed stays backed by such a chain, whatever transaction ends and whatever it overlapped with |
| ToolBrokerOnce.ExecutorStartsAtMostOnce | backend/pixelflow/agent_tools/broker.py:84-105 | over all interleavings of calls, retries, cancellations and crashes the executor starts at most once per tool call key |
| ToolBrokerOnce.RunIsLedgerLater | backend/pixelflow/agent_tools/repository.py:341-406 | a ledger row keeps its digest, and its observation once stored, for good |
| ToolBrokerOnce.CompletedAnswersForever | backend/pixelflow/agent_tools/repository.py:354-363 | after completion every later call with the same digest is answered with exactly the stored observation, one with another digest is refused, and neither changes anything |
| ToolBrokerOnce.OneObservation | backend/pixelflow/agent_tools/broker.py:84-105 | all calls of one key that were answered from the ledger got the same observation |
| ToolBrokerOnce.ExecutingIff | backend/pixelflow/agent_tools/broker.py:297-312 | at rest a row says executing exactly when its one owner ended in an unstored rejection or a crash, although the helper's docstring says that rejections after the claim never leave it so |
| ToolBrokerOnce.RejectedUnstoredIff | backend/pixelflow/agent_tools/broker.py:107-145 | a claimed call is rejected without storing exactly when its tool is unknown, or has a cost, asks for no confirmation and is not granted; the row then says executing for good |
| ToolBrokerOnce.UnknownToolNeverAnswers | backend/pixelflow/agent_tools/broker.py:107-112 | a run from the empty state: a call of an unknown tool is rejected, and every later call of its key is told executing and gets no answer |
| ToolBrokerProvenance.ExecutionsAreConfirmed | backend/pixelflow/agent_tools/broker.py:110-182 | in every run, overlapping user transactions included, each start of a tool that needs confirmation or has a cost has a finite chain of interrupts, each bound to the run of the next, back to an awaiting_confirmation interrupt for the same tool |
| ToolBrokerAnswers.StoredAnswerIsTrue | backend/pixelflow/agent_tools/broker.py:113-284 | over every run from the empty repository, overlaps and crashes included: a stored answer is a completed observation, a failure or a cancellation if and only if the one execution ended with that observation, with an error or by cancellation; a request for authorization iff a credential was refused; for confirmation iff nothing outside was met; a rejection iff the workspace was wrong, and says how; a suspension names its own interrupt, which has that kind, tool and confirmation |
| ToolBrokerAnswers.RaisedIffCancelled | backend/pixelflow/agent_tools/broker.py:229-246 | the executing caller gets the stored answer raised instead of returned if and only if its execution was cancelled |
| ToolBrokerAnswers.OneEnding | backend/pixelflow/agent_tools/broker.py:185-284 | a tool call has at most one ending, and only of an execution that started |
| ToolBrokerRequests.AnsweredAskTheSame | backend/pixelflow/agent_tools/broker.py:75-105 | over every run, whoever was answered from the ledger, as the one that executed or as a retry, asked for the same tool with the same arguments on the same revision as every other one answered under the key, and as what was executed under it |
| ToolBrokerGuards.ExecutionsAreGuarded | backend/pixelflow/agent_tools/broker.py:66-204 | in every run, each start is of a known tool for a request that matches its frozen binding and manifest, on the run's own workspace at the expected revision, with a credential exactly when the tool has a cost |
| AgentToolBroker.AgentToolBroker.Call | backend/pixelflow/agent_tools/broker.py:59-284 | an undisturbed call performs one run of the broker process and nothing else; it executes if and only if it is new, matches what was frozen, its tool is known and granted where it must be, and workspace and credential are there, and is then answered with how the execution ended, which the ledger keeps; a call whose key has a row is answered with what the row says and changes nothing |
| AgentToolRepository.SqlAgentToolRepository.RegisterRunBinding | backend/pixelflow/agent_tools/repository.py:94-110 | a binding is written once; what was read is answered or, when it differs, refused, and an insert that another one came before fails on the primary key |
| AgentToolRepository.SqlAgentToolRepository.GetOrCreateInterrupt | backend/pixelflow/agent_tools/repository.py:138-175 | one interrupt per tool call key; drift is refused |
| AgentToolRepository.SqlAgentToolRepository.IsToolConfirmationGranted | backend/pixelflow/agent_tools/repository.py:194-217 | true exactly when some responded row that resumed the run confirmed the tool |
| AgentToolRepository.SqlAgentToolRepository.RespondInterrupt | backend/pixelflow/agent_tools/repository.py:219-251 | the table after the transaction and its answer, for whatever row it read: foreign, drifted, answered, closed, stale, taken id, answered now over the columns it changed |
| AgentToolRepository.SqlAgentToolRepository.CancelInterrupt | backend/pixelflow/agent_tools/repository.py:253-284 | the same for closing: only forms close, idempotently under one response id |
| AgentToolRepository.SqlAgentToolRepository.BindInterruptResumeRun | backend/pixelflow/agent_tools/repository.py:286-303 | the same for binding: it needs the response it read and accepts one run, which no other interrupt has |
| AgentToolRepository.SqlAgentToolRepository.ClaimToolCall | backend/pixelflow/agent_tools/repository.py:341-386 | an absent row is claimed, another digest refused, a completed row read back, an open one reported executing |
| AgentToolRepository.SqlAgentToolRepository.CompleteToolCall | backend/pixelflow/agent_tools/repository.py:388-406 | the first observation is stored; later ones are answered with it |
| AgentToolRepository.SqlAgentToolRepository.GetOrCreateRecoveryEvent | backend/pixelflow/agent_tools/repository.py:119-136 | one pending record per original run, read back afterwards |
| AgentToolRepository.SqlAgentToolRepository.MarkRecoveryManualReview | backend/pixelflow/agent_tools/repository.py:305-316 | a record that was read as created stays, any other goes to manual review on top of whatever it says now, unless the check constraint forbids it |
| AgentToolRepository.SqlAgentToolRepository.BindRecoveryRun | backend/pixelflow/agent_tools/repository.py:318-339 | a record that was read as pending gets its successor, one read as created accepts only the same, one read as manual review refuses |
| HarnessResume.SameKeyIff | backend/app/gateway/routers/pixelflow_conversations.py:1270-1306 | over every run in which no transaction overwrites, overlapping retries and binds of one run included: two Sidecar requests for one interrupt carry the same run_request_key exactly when the interrupt asks for a confirmation, or both or neither came through /confirmations |
| HarnessResume.OneRunPerInterrupt | backend/app/gateway/routers/pixelflow_conversations.py:1350-1379 | in such a run a properly resumed interrupt has one Sidecar run: all creations on its behalf, across crashes and other response ids, were answered with the run that is bound |
| HarnessResume.BindNeverRefused | backend/pixelflow/agent_tools/repository.py:286-303 | in such a run every bind that is about to end succeeds, whatever came since it read the row, and overwrites nothing |
| HarnessResume.AcceptedRunsAgree | backend/app/gateway/routers/pixelflow_conversations.py:1157-1206 | in such a run, whatever endpoints were used, all accepted requests for one interrupt were told the same run |
| HarnessResume.RetryRefusedIff | backend/pixelflow/agent_harness/sidecar.py:109-137 | once a run was created under a key, every later attempt under the key is refused exactly when its request differs from the first one's, and answered with the same run otherwise |
| HarnessRequests.OpenInterruptResumes | backend/app/gateway/routers/pixelflow_conversations.py:1109-1379 | an undisturbed request for an open interrupt is accepted if and only if its endpoint takes the kind and the revision it names is no older; it then stores its own answer, has one run made under its trigger and response, and binds and reports that run; otherwise the interrupt stays open and no run is made |
| HarnessRequests.OpenFormCloses | backend/app/gateway/routers/pixelflow_conversations.py:1246-1260 | an undisturbed form_cancelled request closes exactly an open form that is no newer than it says |
| HarnessRequests.RetryIsTold | backend/app/gateway/routers/pixelflow_conversations.py:1140-1345 | a retry after the interrupt was resumed is told the bound run and changes nothing: through /authorizations always, through /responses exactly with the same content, through /confirmations exactly with the same response id |
| HarnessResume.OverlappingAnswersResumeTwice | backend/pixelflow/agent_tools/repository.py:219-251 | a run from the initial state, with overlapping answers, in which one confirmation gets two keys and two Sidecar runs |
| HarnessResume.ConfirmingAnAuthorizationResumesTwice | backend/app/gateway/routers/pixelflow_conversations.py:1140-1203 | a concrete run in which /confirmations, which does not look at the interrupt's kind, dies before binding and /authorizations then creates a second Sidecar run |
| HarnessRecovery.RunDecidesOnce | backend/pixelflow/agent_tools/repository.py:305-339 | over every run in which no bind ends over a manual review that it did not read, a recovery record leaves pending once, for created or manual_review, and never changes again |
| HarnessRecovery.DecisionChangesIff | backend/pixelflow/agent_tools/repository.py:305-339 | in every run, overlaps included: a step changes a decided record exactly when a bind that read it pending ends over a manual review |
| HarnessRecovery.BindOverReviewHappens | backend/pixelflow/agent_tools/repository.py:305-339 | a run from the empty table in which that happens, one caller being told manual_review and the other created |
| HarnessRecovery.AnswersAgree | backend/pixelflow/agent_harness/recovery.py:59-116 | in a run without such binds all callers that were told a decision for one original run were told the same, and it is the record's |
| HarnessRecovery.AnswersDifferOnlyIf | backend/pixelflow/agent_harness/recovery.py:59-116 | in every run two callers were told different decisions only as manual_review and created, with created in the record |
| HarnessRecovery.BindRefusedIff | backend/pixelflow/agent_harness/recovery.py:111-116 | in every run binding the successor fails exactly when its transaction read manual review; the other guards never fire |
| HarnessRecovery.OrphanIff | backend/pixelflow/agent_harness/recovery.py:66-116 | in every run a created recovery run is named by its record exactly when some binding of it was committed; otherwise the record is in manual review, or pending, and every caller that created it is still to bind, was refused or died |
| HarnessRecovery.OrphanHappens | backend/pixelflow/agent_harness/recovery.py:66-116 | a run from the empty table that ends with a recovery run that no record names |
| HarnessRecoveryService.RecoveryService.Recover | backend/pixelflow/agent_harness/recovery.py:44-116 | an undisturbed recover performs one run of the recovery protocol; a decided record is read back, a run with tool calls or without its sources goes to manual review and creates nothing, and otherwise the answer and the record are the one Sidecar run of the recovery, unless that was made for another request or is another record's |
| GenerationJobOutcomes.SafeReasonIs | backend/pixelflow/generation_jobs/worker.py:373-379 | the reason is the provider's code without surrounding spaces and in lower case if that is 1 to 96 lower-case letters, digits or underscores, and response_mapping_failed otherwise |
| GenerationJobReactions.ReactionsAreArgued | backend/pixelflow/generation_jobs/worker.py:121-181 | whatever the provider answers, the worker passes arguments that fit the record contract, and never asks for timeout or expired |
| GenerationJobOutcomes.ReopenedAfterPollIff | backend/pixelflow/generation_jobs/repository.py:617-637 | of the answers to a poll, exactly a success without a result and a mapping error that misses the result's URL leave a job that may be reopened |
| GenerationJobOutcomes.ReopenableIff | backend/pixelflow/generation_jobs/repository.py:232-251 | what may be reopened: an undecided job that misses its result, under a provider job, while no job of its workspace item has succeeded |
| GenerationJobOutcomes.ReopeningLeaves | backend/pixelflow/generation_jobs/repository.py:255-262 | a reopened job is polling under its provider job, free, without result or reason, and due at once |
| GenerationJobOutcomes.ClaimableAgain | backend/pixelflow/generation_jobs/repository.py:135-230 | a claimed job can be claimed again exactly once its lease ran out, one put back from its due time on, an ended one never |
| GenerationJobRuns.RunKeepsContract | backend/pixelflow/generation_jobs/contracts.py:70-95 | every job any run reaches satisfies validate_status_contract although no transition runs it; a lease is whole and lives in starting or polling only; timeout and expired never occur |
| GenerationJobRuns.StatusesFollow | backend/pixelflow/generation_jobs/repository.py:98-295 | at every point of every run the status a call leaves may follow the one it found, and indeterminate is left only by reopening, into polling with the same provider job |
| GenerationJobRuns.RunHistory | backend/pixelflow/generation_jobs/repository.py:98-295 | over every run identity, request and idempotency key never change, the provider job is set once, and succeeded and failed jobs stay exactly as they are |
| GenerationJobRuns.SubmittingTwiceIsOnce | backend/pixelflow/generation_jobs/repository.py:122-133 | a new job is stored as submitted and stays under its key over every run; submitting the key again adds and changes nothing |
| GenerationJobRuns.LeaseHasClaim | backend/pixelflow/generation_jobs/repository.py:135-168 | a lease found in a run was put there by a claim, and the job has not been touched since |
| GenerationJobRuns.CommitFollowsOwnClaim | backend/pixelflow/generation_jobs/repository.py:640-645 | every bind, reschedule or complete that commits follows that worker's own unexpired claim with no other call on the job between |
| GenerationJobFairness.OldestFirstIsUnique | backend/pixelflow/generation_jobs/repository.py:343-382 | the jobs the ordered, limited query returns are determined |
| GenerationJobFairness.SqlGenerationJobRepository.SelectOldest | backend/pixelflow/generation_jobs/repository.py:343-382 | exactly min(limit, eligible) jobs, none left out older than one taken |
| GenerationJobFairness.SqlGenerationJobRepository.ClaimStartJobs | backend/pixelflow/generation_jobs/repository.py:343-382 | the oldest eligible jobs are claimed for the worker and no other row changes |
| GenerationJobFairness.ClaimedInTime | backend/pixelflow/generation_jobs/repository.py:343-382 | a queued job with k older queued jobs is claimed by the (k / 6 + 1)-th claim at the latest, if no start lease expires and later jobs are younger |
| GenerationJobRepository.FirstOfBounds | backend/pixelflow/generation_jobs/repository.py:146-156 | slicing the scan gives at most limit distinct jobs, all of them eligible |
| GenerationJobRepository.FirstOfIsExact | backend/pixelflow/generation_jobs/repository.py:146-156 | an eligible job is in the slice exactly when fewer than limit eligible ones come before it in the dictionary |
| GenerationJobRepository.MemoryGenerationJobRepository.CreateOrRead | backend/pixelflow/generation_jobs/repository.py:122-133 | an existing key is read back or refused on another identity; otherwise the job is stored |
| GenerationJobRepository.MemoryGenerationJobRepository.ClaimStartJobs | backend/pixelflow/generation_jobs/repository.py:135-168 | the first eligible jobs in dictionary order are claimed, the others unchanged |
| GenerationJobRepository.MemoryGenerationJobRepository.ClaimPollJobs | backend/pixelflow/generation_jobs/repository.py:197-230 | the same for due polling jobs whose lease is free |
| GenerationJobReopening.ChosenAreLatest | backend/pixelflow/generation_jobs/repository.py:244-251 | whatever the limit, the jobs reopened are the latest of their items and none twice |
| GenerationJobReopening.EveryItemIsReopened | backend/pixelflow/generation_jobs/repository.py:252-254 | with no limit in the way every item with a missing result and no success gets its latest one reopened |
| GenerationJobRepository.MemoryGenerationJobRepository.ReopenMissingImageResults | backend/pixelflow/generation_jobs/repository.py:232-266 | exactly the newest missing result of each of the first limit workspace items without a success, in the order in which the dictionary first has one of theirs, is reopened, and nothing else changes |
| GenerationJobRepository.MemoryGenerationJobRepository.Commit | backend/pixelflow/generation_jobs/repository.py:98-120 | bind, reschedule and complete commit exactly under the worker's unexpired lease and the required status, and write the fields the source writes |
| GenerationJobWorker.Worker.Claim | backend/pixelflow/generation_jobs/worker.py:79-97 | one scan reopens, claims the first six start jobs and fills up with the first due polls: which jobs, by which calls, at most six in all and none twice |
| GenerationJobWorker.Worker.Start | backend/pixelflow/generation_jobs/worker.py:121-146 | one start makes the reaction's call and then the fallback exactly when the provider sent a snapshot and the reaction was refused or something after it raised; while the worker has its lease the record ends as the answer says: polling under the provider job and due after the interval, succeeded with exactly the result, failed with the provider's reason or the default, or indeterminate with its phase and reason |
| GenerationJobWorker.Worker.Poll | backend/pixelflow/generation_jobs/worker.py:148-181 | the same for one poll, with the rescheduling fallback: a polling answer, an unexpected error and a missing authorization leave the job polling, free and due after the interval |
| GenerationJobWorker.Worker.RunOnce | backend/pixelflow/generation_jobs/worker.py:79-181 | whatever the providers answer and however the handlers interleave, a scan is a legal run of repository calls that claims at most six jobs and handles exactly those; when it is over each job answered within its lease is as its answer says, and every other job as it was after the claims |
| EventLog.CreateKeepsGapless | backend/pixelflow/agent_control_plane/persistence/repositories.py:484-494 | storing an event keeps each conversation's sequence 1..n, whatever sequence the caller proposed |
| EventLog.LastIsCount | backend/pixelflow/agent_control_plane/persistence/repositories.py:484-486 | the greatest sequence of a gapless conversation is its number of events |
| EventLog.RefusedOnlyIfStored | backend/pixelflow/agent_control_plane/persistence/repositories.py:479-494 | with one owner, cursors equal to ids and a sequence read from an earlier log, storing fails exactly when the id is there already |
| EventProjection.OutboxIsPrefix | backend/pixelflow/agent_harness/projector.py:192-256 | with any number of concurrent or restarted projectors and interrupt publishers: sequences are 1..n, ids unique, and the projected events of each run are, in order, a prefix of its Sidecar stream that ends at its first terminal state at the latest |
| EventProjection.NeverExhausted | backend/pixelflow/agent_harness/projector.py:234-256 | no projector or publisher ever runs out of its eight attempts: it is refused at most once per event |
| EventProgress.ProjectorCatchesUp | backend/pixelflow/agent_harness/projector.py:171-256 | from every state that a run reaches, a projector that is left alone projects its stream to the end: all of it, or all up to the first event that ends the run, or all before the first that the filter refuses |
| EventStream.PollingIsExact | backend/app/gateway/routers/pixelflow_conversations.py:1521-1542 | from any cursor, polling a growing log sends exactly what one listing at the last poll would: nothing missing, nothing twice |
| EventStream.ListingIsExact | backend/pixelflow/agent_harness/projector.py:171-190 | events_after lists exactly the run's events with a greater sequence, in sequence order |
| EventStream.PollingDeliversPrefix | backend/pixelflow/agent_harness/projector.py:171-190 | over every run of the projection, polling delivers a prefix of the later events |
| EventStream.EndedStreamIsCompleteIff | backend/app/gateway/routers/pixelflow_conversations.py:1523-1541 | when the loop ends on a closed snapshot it has sent everything up to it exactly when the closing event was stored before the last poll, or the client had it already |
| EventStream.LateClosingIsNeverSent | backend/app/gateway/routers/pixelflow_conversations.py:1523-1541 | a run from the empty Outbox in which the client gets nothing, not even the closing event |
| EventRepository.MemoryAgentRuntimeRepository.GetEvent | backend/pixelflow/agent_control_plane/persistence/repositories.py:500-503 | finds the owner's event with this id, if there is one |
| EventRepository.MemoryAgentRuntimeRepository.CreateEvent | backend/pixelflow/agent_control_plane/persistence/repositories.py:468-498 | the log after the call and the stored record: a conversation that another record gives to another owner, a gap or a collision is refused, a stale sequence corrected |
| EventRepository.MemoryAgentRuntimeRepository.ListEvents | backend/pixelflow/agent_control_plane/persistence/repositories.py:520-525 | exactly the owner's events of a conversation, all of them in sequence order if it has one owner |
| EventRepository.HarnessRunProjector.AppendSourceEvent | backend/pixelflow/agent_harness/projector.py:225-256 | with others writing before each attempt: the event is in the Outbox afterwards, with the content given unless its id was there or somebody else stored it; nothing is lost, the sequence stays gapless, and the eight attempts never run out |
| MemoryWriteRuns.AddsAreBounded | backend/pixelflow/long_term_memory/outbox.py:46-277 | over every run of claims, crashes, expired leases, takeovers and overlapping transactions, adapter.add is called for a write at most once, plus once per owner requeue made without an event id, plus once per first claim that ended on a row claimed since it was selected; without such an overlap the last term is absent |
| MemoryWriteRuns.TwoWorkersAddTwice | backend/pixelflow/long_term_memory/outbox.py:46-87 | a run from the empty table in which two workers that select one fresh row both add it, nobody having requeued it |
| MemoryWriteRuns.EventStays | backend/pixelflow/long_term_memory/outbox.py:89-157 | an event id, once stored, stays stored |
| MemoryWriteRuns.ClaimAfterEventNeverAdds | backend/pixelflow/long_term_memory/outbox.py:212-250 | no claim whose worker selected the row after an event id was stored ever leads to add, however many transactions overlap |
| MemoryWriteVerdicts.FinalStatusesAreTold | backend/pixelflow/long_term_memory/outbox.py:212-294 | over every run of claims, crashes, takeovers and overlapping transactions: a write is completed only if some claim of it that carried a stored event id was told stable, and in manual review only if some claim of it got into trouble: a call raised, add gave no event id, the polls ran out, or a second claim found no event id |
| MemoryWriteVerdicts.VerdictIsWritten | backend/pixelflow/long_term_memory/outbox.py:212-294 | after any run, the last transaction of a claim that still has its lease leaves completed exactly when it was told stable, manual review exactly in trouble and under that trouble's code, and pending until the retry time otherwise |
| MemoryWriteVerdicts.ServedAsAnswered | backend/pixelflow/long_term_memory/outbox.py:212-300 | what one undisturbed delivery leaves, by what the row had and the adapter answered: status, event id, failure code, retry time, and the lease gone |
| MemoryWriteVerdicts.CompletedIff | backend/pixelflow/long_term_memory/outbox.py:212-294 | with one worker and no crash a write is completed if and only if it had or got an event id and get_event found that stable before it raised and before the attempts ran out |
| MemoryWriteVerdicts.ClaimableAgain | backend/pixelflow/long_term_memory/outbox.py:46-170 | when a claimed, saved, retried, requeued or finished row can be claimed again |
| MemoryWriteDelivery.DelaysGrowToCap | backend/pixelflow/long_term_memory/outbox.py:296-300 | retry delays start at the initial one, never shrink, double until the cap and never exceed it |
| MemoryWriteDelivery.DeliveryTerminates | backend/pixelflow/long_term_memory/outbox.py:212-294 | with one worker, no crash and any answers, a pending write is completed or in manual review after at most max(2, max_event_poll_attempts) claims |
| MemoryWriteDelivery.BoundIsTight | backend/pixelflow/long_term_memory/outbox.py:279-294 | with every poll pending, one claim fewer leaves a fresh write pending |
| MemoryWriteDelivery.SqlWriteOutbox.Enqueue | backend/pixelflow/long_term_memory/outbox.py:36-44 | one row per write key; the same key with other content is refused |
| MemoryWriteDelivery.SqlWriteOutbox.SelectClaimable | backend/pixelflow/long_term_memory/outbox.py:46-73 | a claimable row that no other claimable row comes before in (retry_not_before, created_at), wherever the database puts absent retry times, or none if there is none |
| MemoryWriteDelivery.SqlWriteOutbox.CommitClaim | backend/pixelflow/long_term_memory/outbox.py:74-87 | the claimed columns of the row as it was selected, written on the row as it is now |
| MemoryWriteDelivery.SqlWriteOutbox.SaveEventId | backend/pixelflow/long_term_memory/outbox.py:89-100 | only a worker that read the row under its own lease stores the event id, over the columns it changed |
| MemoryWriteDelivery.SqlWriteOutbox.Retry | backend/pixelflow/long_term_memory/outbox.py:102-121 | the same for putting the write back, with its delay |
| MemoryWriteDelivery.SqlWriteOutbox.MoveToManualReview | backend/pixelflow/long_term_memory/outbox.py:123-141 | the same for moving the write to manual review |
| MemoryWriteDelivery.SqlWriteOutbox.RequeueManualReview | backend/pixelflow/long_term_memory/outbox.py:143-157 | only its user requeues a write in manual review; attempts restart at 0 without an event id and at 1 with one |
| MemoryWriteDelivery.SqlWriteOutbox.Complete | backend/pixelflow/long_term_memory/outbox.py:159-170 | the same for completing the write |
| MemoryWriteDelivery.MemoryWriteWorker.RunOnce | backend/pixelflow/long_term_memory/outbox.py:212-277 | one undisturbed scan serves a claimable row that no other comes before and changes no other |
| DraftRecords.ValidUntilExpiry | backend/pixelflow/tasks/store.py:198-223 | a success with a good download URL counts until the moment it expires and as failed from then on |
| DraftPatch.StrangersLeaveRecord | backend/pixelflow/tasks/store.py:226-260 | over any run of patches a record stays exactly as it is unless a patch is for its own job or for the job pending when it comes |
| DraftPatch.UnauthorizedChangesNothing | backend/pixelflow/tasks/store.py:311-379 | a patch that nothing authorizes leaves records, pending job, phase and resume error as they were |
| DraftPatch.PendingStaysOverRuns | backend/pixelflow/tasks/store.py:263-282 | over any run of patches for other jobs the pending entry of a job stays |
| DraftPatch.PhaseIsUnbackedIff | backend/pixelflow/tasks/store.py:285-308 | a patch moves the phase to succeeded without a valid success among its records, or to running without a pending job of its own, if and only if its caller asked for that phase, it is authorized, no job is pending after it and no record it names has ended |
| DraftPatch.SuccessWithoutRecord | backend/pixelflow/tasks/store.py:303-308 | such a patch: it closes the pending job, names no record and moves the phase to succeeded |
| DraftPatch.PhaseTells | backend/pixelflow/tasks/store.py:285-379 | the phase after a patch in every case: unchanged, running, succeeded, failed, timeout or as asked, by authorization, pending job and the records named; the resume error is set exactly when given and authorized |
| DraftPatch.PatchTells | backend/pixelflow/tasks/store.py:219-343 | what becomes of each record and of the pending entry, and when a patch is authorized, on the stored fields |
| DraftPatch.ClosingPatchIsIdempotent | backend/pixelflow/tasks/store.py:346-379 | a patch without a pending job applied twice at one instant, phase and resume error included, equals applying it once |
| DraftPatch.SuccessStaysUntilExpiry | backend/pixelflow/tasks/store.py:198-216 | over any run of patches a success stays untouched until it expires |
| DraftPatch.RankGrowsOverRuns | backend/pixelflow/tasks/store.py:226-260 | over any run during which a record stays with its job, its rank only grows |
| DraftPatch.MergeLoop | backend/pixelflow/tasks/store.py:332-343 | the loop over the incoming records, in any order, merges each and authorizes when one does |
| DraftPatch.PatchDraftContext | backend/pixelflow/tasks/store.py:311-379 | the imperative patch computes the specified context and phase |
| ConversationRevisions.RevisionNamesContent | backend/pixelflow/tasks/store.py:146-155 | over any run of writes the same revision means the same content |
| ConversationRevisions.NoLostUpdate | backend/pixelflow/tasks/store.py:1292-1341 | a write that names the revision its author read succeeds only if nothing changed since, and is refused otherwise |
| ConversationRevisions.SecondWriterIsRefused | backend/pixelflow/tasks/store.py:146-155 | of two writers with the same revision, the second is refused once the first changed something |
| ConversationRevisions.ClientsNeverTouchServerPart | backend/pixelflow/tasks/store.py:382-393 | no run of client updates changes the runtime namespace or the draft entries of the context |
| ConversationRevisions.PatchesKeepApart | backend/pixelflow/tasks/store.py:396-408 | a runtime patch and a draft patch commute |
| ConversationRevisions.LastPatchWins | backend/pixelflow/tasks/store.py:396-408 | over every run of writes a runtime key holds the value of the last accepted patch that named it |
| ConversationRevisions.RuntimePatchTakesEffect | backend/pixelflow/tasks/store.py:1343-1369 | after an accepted runtime patch each of its keys holds its value and everything else but the chat snapshot what it held |
| ConversationRevisions.UpdateTakesEffect | backend/pixelflow/tasks/store.py:1292-1341 | after an accepted update each given field is as given and each other field as it was; the context is the client's outside the server's keys, with the runtime patch on top |
| ConversationRevisions.RefusedIff | backend/pixelflow/tasks/store.py:146-155 | an operation is refused exactly for a foreign user, a revision that is not positive, or another revision than the record's; accepted ones raise the revision by one exactly when they change something |
| ConversationRevisions.ConversationRecord.UpdateFields | backend/pixelflow/tasks/store.py:1292-1341 | the record after an update: refused and unchanged, or the wanted content with the revision raised exactly when something changed |
| ConversationRevisions.ConversationRecord.PatchAgentRuntime | backend/pixelflow/tasks/store.py:1343-1369 | the same for the runtime patch, which requires a revision |
| ConversationPages.CursorRoundTripIff | backend/pixelflow/tasks/store.py:436-447 | a cursor reads back as its key exactly when the id holds no bar and the stored time is in normal form |
| ConversationPages.PagingIsExactIff | backend/pixelflow/tasks/store.py:1280-1290 | following next_cursor from none lists every conversation exactly once, in descending order, and ends, if and only if there is nothing to list, or the page size is at least one and the cursor at the end of every page reads back as a key between its row and the next; it then takes at most n / limit + 1 pages |
| ConversationPages.ReadableCursorsLead | backend/pixelflow/tasks/store.py:436-447 | ids without a bar and times in normal form meet that condition for every page size |
| ConversationPages.OneArrangement | backend/pixelflow/tasks/store.py:1281-1282 | keys can be put in descending order in one way only, so the listing is determined |
| ConversationPages.UnreadableCursorLoops | backend/pixelflow/tasks/store.py:1283-1289 | when a page's cursor cannot be read the next page is the first one again, and following never ends |
| ConversationPages.MemoryConversationStore.SortedRows | backend/pixelflow/tasks/store.py:1281-1282 | the user's keys, all of them, in descending order |
| ConversationPages.MemoryConversationStore.ListConversations | backend/pixelflow/tasks/store.py:1280-1290 | the page of the user's keys below the cursor, for the one way of sorting them in descending order |
| SceneProjection.ProgressIsExact | backend/pixelflow/generation_jobs/projector.py:156-179 | completed and polling jobs make up the total exactly when every entry is a mapping; then ok holds exactly when nothing is active and the total is positive |
| SceneProjection.NoneActiveIff | backend/pixelflow/generation_jobs/projector.py:156-167 | nothing counts as polling exactly when no entry says queued, starting or polling |
| SceneProjection.PatchReportsProgress | backend/pixelflow/generation_jobs/projector.py:156-179 | a success patch reports the unchanged total, and its completed count with the still active jobs makes it up |
| SceneProjection.DirtyUnlessRegenerated | backend/pixelflow/generation_jobs/projector.py:118-155 | a scene stays dirty except the carried one when its whole cohort succeeded, which its status says |
| SceneProjection.DeliveryWrites | backend/pixelflow/generation_jobs/projector.py:83-141 | what one delivery writes into a scene: the job's entries with the result's own artifact and video, the variant once, selected and approved exactly when the scene has one entry, and the scene's own variant and video exactly when the job is alone in its plan step; nothing else |
| SceneProjection.ReplayChangesOnlyTimes | backend/pixelflow/generation_jobs/projector.py:71-153 | delivering the same success again at any time adds no variant and keeps statuses and progress; nothing at all changes if and only if no scene has the job, the result carries its own time or the clock reads the same |
| SceneProjection.SuccessesCommute | backend/pixelflow/generation_jobs/projector.py:71-153 | two different jobs' successes, each delivered at its own time, commute on job entries, variant ids and progress |
| SceneProjection.UpdateLoop | backend/pixelflow/generation_jobs/projector.py:83-150 | the loops compute the updated scenes and the last updated one |
| SceneProjection.CountLoop | backend/pixelflow/generation_jobs/projector.py:156-167 | the two sums |
| SceneProjection.BuildSuccessPatch | backend/pixelflow/generation_jobs/projector.py:71-182 | the imperative projection returns the specified patch, or none |

## Left out

- HTTP, JWT, SSE transport, httpx clients, SQL sessions, schema migration and startup wiring: only the state each
  transaction reads and writes is modelled.
- Length limits and normalisation of texts, whitespace around provider ids and step ids, URL canonicalisation: texts arrive
  already normalised.
- Provider adapters, tool bodies, credential stores, the workspace repository and `_project`'s merge into the workspace: the
  environment decides what they answer; whether a credential is available is an input.
- The SQL compaction queue: it treats `retry_not_before` and the order of the next turn differently from the memory class,
  which is the one modelled. `create_turn` and `enqueue_turn` with a caller-chosen status, and the statuses `waiting_user` and
  `failed`, are not driven by any modelled call.
- EventLog.Create: a function on the log in storage order; the memory class keeps three index sets beside its dictionary,
  which hold the same ids, sequences and cursors.
- The endpoints of HarnessResume are processes over values rather than methods over the repository object, because each is
  suspended between its repository calls; the repository calls themselves are methods of `SqlAgentToolRepository`.
- The broker's response texts, traces and `_safe_model_observation`: a response is a constructor with an opaque observation.
- HarnessResume.RetryRefusedIff: what the context digest covers, the workspace revision among it, is one value of the request.
- GenerationJobFairness.ClaimedInTime: is about the SQL order; the memory class takes dictionary order, which is submission
  order.
- EventRepository.MemoryAgentRuntimeRepository.CreateEvent: the records of other tables that give a conversation its owner are
  one set per conversation.
- MemoryWriteDelivery.DeliveryTerminates: one worker; with overlapping workers a write can be served by both.
- MemoryWriteDelivery.DelaysGrowToCap: whole ticks instead of floating-point seconds.
- ConversationPages.PagingIsExactIff: the memory store's text order; the SQL store compares times. The store does not change
  between pages.
- SceneProjection.SuccessesCommute: the order of variants, the edit status and the approved variant of a scene do depend on
  which job finishes last; entries of the variants list that are no mappings are dropped by the source and absent here.
- `build_scene_generation_failure_patch` and the image asset patches: the same loops with fewer fields.
- Draft records and pending jobs that code only copies: their other entries are one opaque value.
- The message list, trace events, tasks, assets and session contexts of the store: key-value writes.
- Chat message jobs, snapshots' workspace projection and the bounded event tail of a snapshot: views without state.
