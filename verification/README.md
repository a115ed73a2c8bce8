# Outbound delivery, campaigns and their neighbours: a verified model

This project models the parts of the messaging backend that move state in small
steps under concurrency, and proves what every run of them keeps. The centre is
outbound delivery: queue workers take one message row through QUEUED, PROCESSING
and SENT or FAILED, with retries, dead letters and crash recovery. Around it are
campaign fan-out, scheduled messages, webhook deliveries, automation executions,
the socket presence registry, renewal periods and the envelope of encrypted fields.

Each protocol is a state machine (`State`, `Step`, `Apply`) whose steps are the
statements that touch shared state. `Valid` and `Exec` give its runs, and the
theorems quantify over all of them: any interleaving, any duplicate delivery, and
an instance may die after any statement. Beside each machine a class holds the
worker's own code, changing its fields statement by statement; its methods are
proved equal to an undisturbed run of the machine, so that the theorems about runs
apply to the code. Two exceptions: the batch worker and the executor are proved
against direct specifications of the tables they leave behind. What single steps
decide is pinned down a second time: handlers state their outcomes in literal statuses
and counts, and the modules ending in `Laws` bound every effect of a run by the answers
that call for it.

| files | part |
|---|---|
| `ChannelSend`, `ChannelSendTheorems`, `ChannelSendProgress`, `ChannelSendLaws`, `ChannelSendWorker` | channel send worker |
| `ChannelRecovery`, `ChannelRecoveryProgress` | the same rows under recovery and the WhatsApp worker |
| `WhatsAppJobs`, `WhatsAppSend`, `WhatsAppExclusion`, `WhatsAppRepeat`, `WhatsAppLaws` | WhatsApp send worker and recovery, statement by statement |
| `WhatsAppDelivery`, `WhatsAppRetryJobs`, `WhatsAppWorker` | the same with whole handler runs as steps, and the code |
| `CampaignRun`, `CampaignProofs`, `CampaignTheorems`, `CampaignProgress`, `CampaignLaws` | batch workers, event handlers and executors together |
| `CampaignBatch`, `CampaignExecutor`, `CampaignEvents` | the code of the three campaign components |
| `ScheduledMessage`, `ScheduledMessageTheorems`, `ScheduledMessageWorker` | scheduled messages |
| `WebhookDelivery`, `Automation` | webhook deliveries; automation executions |
| `SocketRegistry`, `WebSocketGateway` | socket presence |
| `Calendar`, `BillingPeriod` | calendar days; renewal periods |
| `Base64`, `EncryptionEnvelope` | encrypted fields |
| `Backoff`, `ErrorPatterns`, `Counting`, `Prelude` | retry delays, error classes, counting, small types |

## Assumptions

- The queue delivers a job at least once, at any time and in any order, and delivers
  the job of a handler that did not return again. A send under a singleton key is a
  no-op while a job with that key is pending or active, as
  `backend/src/infrastructure/queue/queue.service.ts:53-67` says. How often a job is
  delivered is bounded only where a theorem depends on it, in the scheduled
  messages: three times more, as in lines 16-24 of that file.
- A compare-and-set on a status, a single-row update and an increment are each one
  atomic step.
- Whether a row is old enough for recovery is left open: a recovery pass may find
  any row with the right status. So every theorem holds for every threshold.
- An exception that leaves a handler counts as the handler's death.
- Errors of the API, the adapter, the endpoint and the session check are free
  choices of the run. So is which call inside a try block throws, for the store
  and the queue as well, where the catch block goes on to write something.
- The modules `ChannelSend`, `ChannelSendTheorems`, `ChannelSendProgress` and
  `ChannelSendWorker`, with `ChannelSendLaws`, are about the channel worker alone. Recovery also finds its
  rows; what holds then is said in `ChannelRecovery` and `ChannelRecoveryProgress`.
- Access tokens name a non-empty user and organisation, and socket ids are fresh.
- The cipher and the text encoding are inverse pairs; days are counted without
  daylight saving; lower-casing is ASCII.

## What the code does that its comments do not say

- The retry job of the channel worker carries the singleton key of the job that is
  still running. Unless that job was closed under it, the queue drops the retry
  (`RetryJobsAreDropped`), and a message refused once is never sent again by this
  worker (`RefusedMessageIsOrphaned`).
- By the channel worker alone a message can come to an end exactly if no dead
  handler holds it and it is not left QUEUED without a job
  (`ChannelSendProgress.CanFinishIff`). The rest is left to recovery, which does not
  look at the channel: it hands the message to the WhatsApp worker, and if every
  handler there dies too it ends FAILED (`RecoveryFailsAtLast`). Only a message sent
  by that worker and put back after it can be beyond recovery
  (`ChannelRecoveryProgress.CanFinishIff`, `AbandonedAfterSend`).
- One owner at a time and one outcome hold under recovery exactly if it never writes
  a row that is final or that a live handler owns, and no handler fails after storing
  the provider's id (`OrderlyIff`); otherwise a message can be sent and dead-lettered
  (`SentAndDeadLettered`).
- `EAUTH` and `EENVELOPE` are searched for in lower-cased text and never match
  (`CapitalPatternsAreDead`).
- The WhatsApp worker's guard against sending twice is read before its claim. When
  another call is possible after the provider's id was stored is said exactly by
  `CanCallAgainIff`; `DuplicateSendThroughStaleLoad` is such a run.
- Recovery writes a row without regard to a slow owner
  (`DuplicateSendThroughPrematureRecovery`).
- An error after the provider id was stored sends a delivered message back to
  QUEUED; only a receipt of the provider takes it out of there
  (`OnlyReceiptsFinish`, `WhatsAppDelivery.CanFinishIff`).
- A throttled WhatsApp handler publishes its delayed job under the singleton key
  `msg-delayed-` plus the message's id, which is the key of the job it is running if it
  was throttled before. The queue drops it, and only recovery gets the message on
  (`ThrottledTwice`).
- A receipt moves a FAILED message on, and a failure counts after any other receipt
  (`ReceiptsConverge`, `FailureReceipt`).
- A handler or recovery pass that dies between `markFailed` and the dead letter
  loses the dead letter (`LostDeadLetter`).
- `markFailed` raises the retry count, so a FAILED row may show one more than
  its limit.
- The header of the recovery worker announces a third case, FAILED messages below
  the threshold; there is no code for it, and the model follows the code.
- A batch worker that dies between creating and publishing a message strands it:
  re-runs take it for queued (`PublishedIff`, `StrandedMessage`). Recovery of stale
  QUEUED rows is what remains for it.
- The executor completes a campaign when nobody was PENDING, though recipients may
  still be QUEUED, and announces it without looking at its compare-and-set
  (`CompletionSoundIff`, `Announcements`, `CompletedTooEarly`). Insertion cut short
  is not resumed.
- A scheduled message handed off but not published stays QUEUED (`CanEndIff`,
  `HandOffDies`); an execution that dies after its publish is repeated, publish and
  all (`SentTwice`); a cancelled message is sent after all exactly if an execution
  had loaded it (`SentAfterCancelIff`, `CancelledYetSent`).
- A socket that drops while its connection is being set up would be registered
  afterwards and never removed (`NoStaleEntryIff`). It takes an awaited call of the
  set-up that lets other events in, such as joining a room through an adapter over a
  network; no such adapter is configured, and without one this does not happen
  (`PromptSetUpIsSafe`).
- A webhook answered with 2xx stays SUCCESS only if nothing throws while the answer
  is written up; otherwise it is called again and may count as failed (`SuccessIff`,
  `AnsweredYetFailed`).
- Recovery that gives a campaign's message up announces nothing, so its recipient
  stays QUEUED and holds the campaign up (`HeldUp`).
- An automation execution whose actions all succeeded is logged FAILED if the final
  write-up throws (`AutomationEvaluatorWorker.Handle`).
- A redelivered automation execution starts from its first action
  (`ExecutedOncePerDelivery`). Nothing subscribes to the queue its delayed
  actions are published to.
- Plain text can be taken for ciphertext, contrary to the comment on `isEncrypted`
  (`IsEncryptedIff`, `WordsTakenForEnvelope`).

## Model

| member | source | states |
|---|---|---|
| `ChannelSendTheorems.RetryBound` | backend/src/jobs/channel/send-channel-message.worker.ts:64-193 | with at most W handlers in flight, interleaved in any way, retryCount never exceeds maxRetries - 1 + W although each handler tests a stale snapshot; sends are at most retryCount + 1; W = 1 gives maxRetries and maxRetries + 1 |
| `ChannelSendTheorems.RetryBoundAttained` | backend/src/jobs/channel/send-channel-message.worker.ts:178-193 | for every limit and every W some run reaches that bound |
| `ChannelSendTheorems.MutualExclusion` | backend/src/jobs/channel/send-channel-message.worker.ts:85-99 | by the worker alone: never two handlers, dead or alive, between a claim and an outcome write; the row is PROCESSING exactly while one is there |
| `ChannelSendTheorems.OneOutcome` | backend/src/jobs/channel/send-channel-message.worker.ts:137-158 | by the worker alone: at most one dead letter, only for a FAILED row; at most one final event, of the row's status; no more QUEUED events than retries |
| `ChannelSendTheorems.FinalIsAbsorbing` | backend/src/jobs/channel/send-channel-message.worker.ts:72-99 | from SENT or FAILED no run of the worker changes the row or calls the adapter again |
| `ChannelSendTheorems.CrashFreezesTheRow` | backend/src/jobs/channel/send-channel-message.worker.ts:85-99 | by the worker alone: a handler that died holding the row leaves it PROCESSING in every later state, with no further send |
| `ChannelSendTheorems.RetryJobsAreDropped` | backend/src/jobs/channel/send-channel-message.worker.ts:209-214 | jobs modelled as waiting, active or closed under one key: in every run in which no job is closed under a live handler, the message never gets a second job |
| `ChannelSendTheorems.RetryTakenOnceGivenUp` | backend/src/infrastructure/queue/queue.service.ts:53-82 | that condition is needed: a run in which the queue gives up a job and its slow handler's retry is taken |
| `ChannelSendProgress.CanFinishIff` | backend/src/jobs/channel/send-channel-message.worker.ts:85-99 | by the worker alone: from a reachable state some run ends in SENT or FAILED exactly if no dead handler holds the row and it is not QUEUED with no open job and nobody to claim or publish |
| `ChannelSendProgress.DiesHoldingTheRow` | backend/src/jobs/channel/send-channel-message.worker.ts:85-99 | a run that dies after its claim and reaches a state that the worker alone cannot finish |
| `ChannelSendProgress.OrphanedForEver` | backend/src/jobs/channel/send-channel-message.worker.ts:170-214 | by the worker alone: a QUEUED row without job or carrier is never written or sent again |
| `ChannelSendWorker.RefusedMessageIsOrphaned` | backend/src/jobs/channel/send-channel-message.worker.ts:170-214 | a message whose last open job ends in a retryable refusal is such a row, its retry counted, whatever runs of the worker follow |
| `ChannelRecovery.OrderlyIff` | backend/src/jobs/messaging/message-recovery.worker.ts:38-117 | with recovery passes and WhatsApp handlers on the row: throughout a run at most one live handler owns it and there is one outcome exactly when it is final, if and only if recovery never writes a row that is final or that a live handler owns and no handler fails after storing the provider's id |
| `ChannelRecovery.OneOutcomeWithRecovery` | backend/src/jobs/messaging/message-recovery.worker.ts:48-100 | in such runs at most one outcome and one dead letter, and no dead letter for a message that was sent |
| `ChannelRecoveryProgress.SentAndDeadLettered` | backend/src/jobs/messaging/message-recovery.worker.ts:82-100 | a run with a premature recovery that ends SENT with a dead letter |
| `ChannelRecoveryProgress.CanFinishIff` | backend/src/modules/messages/infrastructure/repositories/message.repository.ts:255-288 | with recovery, some run ends in SENT or FAILED exactly if it is not the case that a provider id is stored, nobody can claim, write or publish any more, and the row is QUEUED or is PROCESSING with retries left |
| `ChannelRecoveryProgress.RecoveryFailsAtLast` | backend/src/jobs/messaging/message-recovery.worker.ts:47-142 | a row without provider id can be brought to FAILED by recovery even if every handler it is handed to dies |
| `ChannelRecoveryProgress.AbandonedAfterSend` | backend/src/jobs/whatsapp/send-message.worker.ts:200-245 | a run after which even recovery cannot end the message |
| `ChannelSend.InvStep` | backend/src/jobs/channel/send-channel-message.worker.ts:57-282 | every statement of every handler keeps the invariant: holders against status, the retry budget, sends against retries, outcomes and dead letters, events against status |
| `ChannelSendLaws.WillRetryIff` | backend/src/jobs/channel/send-channel-message.worker.ts:170-182 | a refusal is retried exactly if the adapter's flag says so, its text names none of the permanent errors, and the loaded retryCount is below the limit |
| `ChannelSendLaws.OutcomeIs` | backend/src/jobs/channel/send-channel-message.worker.ts:100-214 | the outcome of every handler in every interleaving, in literal statuses: FAILED on an inactive channel, SENT, QUEUED with one retry more and a delay of 5, 10, 20, 40, 80, 160 or 300 seconds, or FAILED and to be dead-lettered |
| `ChannelSendLaws.AnswersDecide` | backend/src/jobs/channel/send-channel-message.worker.ts:100-214 | over every run: no more retries than transient refusals, SENT only after an accepted call, no more dead letters than refusals, no more calls than checks that found the channel active, FAILED only after a check that did not or a refusal |
| `ChannelSendLaws.PermanentRefusalsAreFinal` | backend/src/jobs/channel/send-channel-message.worker.ts:160-182 | over every run in which each call is refused for good, retryCount stays 0, there is one call at most, and the row is never SENT |
| `ChannelSendWorker.ScriptEffect` | backend/src/jobs/channel/send-channel-message.worker.ts:57-229 | the row, events, dead letters, sends and jobs that one undisturbed delivery leaves, branch by branch: its job is used up and none takes its place; which refusals are retried is `ChannelSendLaws.WillRetryIff` |
| `ChannelSendWorker.SendChannelMessageWorker.Deliver` | backend/src/jobs/channel/send-channel-message.worker.ts:47-52 | a job delivered, handled and taken as done leaves exactly what an undisturbed run of the protocol leaves |
| `ChannelSendWorker.SendChannelMessageWorker.Handle` | backend/src/jobs/channel/send-channel-message.worker.ts:57-229 | the handler's code, a missing row included, makes of the message what that run makes of it, and adds no job while its own is active; after a claim and a refusal the row is QUEUED with one retry more exactly if the adapter calls it retryable, none of the permanent errors occurs in its text and the loaded retryCount is below maxRetries, and otherwise FAILED with one dead letter more; SENT exactly after an accepted call; FAILED without a dead letter for an inactive channel |
| `ChannelSendWorker.SendChannelMessageWorker.ClaimQueued` | backend/src/jobs/channel/send-channel-message.worker.ts:86-92 | the compare-and-set claim: counts one and writes PROCESSING only on a QUEUED row |
| `ChannelSendWorker.SendChannelMessageWorker.FailMessage` | backend/src/jobs/channel/send-channel-message.worker.ts:231-271 | FAILED row, one FAILED event, one dead letter exactly if asked for |
| `ErrorPatterns.CapitalPatternsAreDead` | backend/src/jobs/channel/send-channel-message.worker.ts:21-31 | the two capitalised patterns match no error at all; the list decides like its first seven entries |
| `ErrorPatterns.PermanentErrorInAnyWrapping` | backend/src/jobs/whatsapp/send-message.worker.ts:29-42 | a permanent error stays permanent under any text around it and any capitalisation |
| `ErrorPatterns.ChannelPatternsIff` | backend/src/jobs/channel/send-channel-message.worker.ts:21-31 | an error counts as permanent exactly if one of seven texts, written out, occurs in it in any capitalisation |
| `ErrorPatterns.IsRetryableIff` | backend/src/jobs/whatsapp/send-message.worker.ts:29-42 | the same for the seven texts of the WhatsApp worker |
| `Backoff.CappedDelayMonotone` | backend/src/jobs/whatsapp/send-message.worker.ts:49-55 | before jitter the delay never falls with the attempt, never passes 300, and is 300 exactly from the seventh on |
| `Backoff.TotalDelayClosedForm` | backend/src/jobs/whatsapp/send-message.worker.ts:49-55 | n retries wait 5(2^n - 1) seconds up to six, 315 + 300(n - 6) beyond |
| `Backoff.JitterBounds` | backend/src/jobs/whatsapp/send-message.worker.ts:49-55 | for every random draw the rounded delay is at least the unjittered one and at most its 1.25 multiple rounded, hence at most 375 |
| `Backoff.JitterExact` | backend/src/jobs/whatsapp/send-message.worker.ts:49-55 | for every draw it is the whole number nearest to the delay times 1 + draw/4, halves going up |
| `Backoff.DelayTable` | backend/src/jobs/whatsapp/send-message.worker.ts:49-55 | the delays before jitter: 5, 10, 20, 40, 80, 160, then 300 |
| `WhatsAppSend.Conservation` | backend/src/jobs/whatsapp/send-message.worker.ts:106-153 | in every interleaving of handlers and recovery passes, claims balance entries into QUEUED, and API calls are at most one plus retries plus recoveries, throttlings cancelling out |
| `WhatsAppSend.CallBound` | backend/src/jobs/whatsapp/send-message.worker.ts:253-342 | at most maxRetries + L calls, with L handlers and recovery passes in flight, despite unconditional outcome writes |
| `WhatsAppLaws.AnswersDecide` | backend/src/jobs/whatsapp/send-message.worker.ts:120-246 | over every run: no more calls than the limiter allowed, nor than sessions found up; no more throttlings than it refused; an id only after an accepted call; no more retries than retryable failures |
| `WhatsAppRepeat.CallBoundAttained` | backend/src/jobs/whatsapp/send-message.worker.ts:253-310 | for every limit and every L some run makes exactly maxRetries + L calls |
| `WhatsAppExclusion.BrokenIff` | backend/src/jobs/messaging/message-recovery.worker.ts:82-100 | from a guarded row, two live handlers come to own it in a run exactly if recovery writes it while one owns it and later, the owner still at it, another claims it |
| `WhatsAppExclusion.ExclusionIff` | backend/src/jobs/whatsapp/send-message.worker.ts:106-117 | step by step: at most one live handler may write the row throughout a run exactly if no claim of the run succeeds on an owned row |
| `WhatsAppExclusion.GuardIffRecoversOnlyTheDead` | backend/src/jobs/messaging/message-recovery.worker.ts:38-116 | at most one live handler may write the row and the row's status shows it, throughout a run, exactly if recovery never writes a row a live handler owns |
| `WhatsAppExclusion.ExclusionWithoutPrematureRecovery` | backend/src/jobs/messaging/message-recovery.worker.ts:38-116 | recovery that only catches dead handlers is enough for exclusion |
| `WhatsAppExclusion.PrematureYetExclusive` | backend/src/jobs/messaging/message-recovery.worker.ts:82-100 | it is not necessary: a run with a premature recovery and one owner throughout |
| `WhatsAppRepeat.CanCallAgainIff` | backend/src/jobs/whatsapp/send-message.worker.ts:95-117 | with the provider's id stored, some run calls the API again exactly if a live handler is past its claim and before its call, or one has loaded the row and the row is QUEUED or some actor, or a new recovery pass, can make it so |
| `WhatsAppExclusion.DuplicateSendThroughStaleLoad` | backend/src/jobs/whatsapp/send-message.worker.ts:88-111 | a run without any recovery that sends the same message twice |
| `WhatsAppExclusion.DuplicateSendThroughPrematureRecovery` | backend/src/jobs/messaging/message-recovery.worker.ts:82-100 | a run without any error in which recovery puts two live handlers past the claim and both call the API |
| `WhatsAppDelivery.SentOnceIdStored` | backend/src/jobs/whatsapp/send-message.worker.ts:95-104 | with handler runs, recovery passes and receipts as steps: after the provider id is stored nothing claims, sends or dead-letters again, and only receipts write the row |
| `WhatsAppDelivery.OnlyReceiptsFinish` | backend/src/modules/whatsapp/application/use-cases/handle-status-update.use-case.ts:26-83 | a row QUEUED with an id stored becomes final in exactly the runs that bring a receipt for it |
| `WhatsAppDelivery.SentYetQueued` | backend/src/jobs/whatsapp/send-message.worker.ts:200-245 | an error after the id was stored makes such a row: sent once, and QUEUED exactly until a receipt |
| `WhatsAppDelivery.CanFinishIff` | backend/src/jobs/messaging/message-recovery.worker.ts:124-142 | workers and recovery alone can bring a reachable row to an end exactly if it is not QUEUED with an id stored |
| `WhatsAppDelivery.StepDescends` | backend/src/jobs/messaging/message-recovery.worker.ts:47-116 | every step of a run without throttling, store errors, deaths before the claim and failure receipts lowers a well-founded measure of retries left, status and jobs |
| `WhatsAppDelivery.EveryRunEnds` | backend/src/jobs/whatsapp/send-message.worker.ts:253-342 | there is no infinite such run, deaths after the claim included |
| `WhatsAppDelivery.MaximalRunIsFinal` | backend/src/jobs/messaging/message-recovery.worker.ts:38-158 | where such a run cannot go on, the row is sent (SENT or beyond) or FAILED and no job is left |
| `WhatsAppDelivery.ClaimBound` | backend/src/jobs/whatsapp/send-message.worker.ts:85-117 | at most maxRetries + 1 claims and calls; one dead letter for a FAILED message, exactly unless who failed it died before writing it |
| `WhatsAppDelivery.LostDeadLetter` | backend/src/jobs/whatsapp/send-message.worker.ts:312-342 | a run that leaves a FAILED message without a dead letter, for good |
| `WhatsAppRetryJobs.RetriesArePublished` | backend/src/jobs/whatsapp/send-message.worker.ts:280-294 | over every run in which no handler dies and no throttled job is throttled again, a QUEUED row without an id has a job that can claim it, without recovery: each retry is published |
| `WhatsAppRetryJobs.ThrottledTwice` | backend/src/jobs/whatsapp/send-message.worker.ts:142-153 | that condition is needed: a job published for a throttling and throttled again leaves a QUEUED row without a job, which only recovery can move |
| `WhatsAppDelivery.ReceiptsConverge` | backend/src/modules/whatsapp/application/use-cases/handle-status-update.use-case.ts:37-82 | receipts without a failure, in any order and number: the row ends at the furthest status it or any of them had, and nothing else changes |
| `WhatsAppDelivery.FailureReceipt` | backend/src/modules/whatsapp/application/use-cases/handle-status-update.use-case.ts:58-80 | a failure receipt makes any row FAILED and raises its retry count |
| `WhatsAppWorker.EveryRunIsAFate` | backend/src/jobs/whatsapp/send-message.worker.ts:85-246 | however the statements of one handler alone go, deaths after any statement included, row, jobs, claims, calls and dead letters are as one of the fates leaves them, or unchanged if the row was not claimable |
| `WhatsAppWorker.EveryFateIsARun` | backend/src/jobs/whatsapp/send-message.worker.ts:85-246 | and every fate after a claim is realised by those statements |
| `WhatsAppWorker.MessageWorkers.Handle` | backend/src/jobs/whatsapp/send-message.worker.ts:85-246 | the handler's code makes exactly the coarse step of its message and touches no other; and row, jobs, claims, calls and dead letters it leaves, written out fate by fate |
| `WhatsAppWorker.MessageWorkers.HandleFailure` | backend/src/jobs/whatsapp/send-message.worker.ts:253-342 | a retryable failure below the limit makes the row QUEUED with one retry more and adds exactly the job of that retry; any other makes it FAILED with one dead letter more; if the handler dies after the row's write, without the job or the dead letter |
| `WhatsAppWorker.MessageWorkers.HandleSendError` | backend/src/jobs/whatsapp/send-message.worker.ts:205-245 | which error texts lead to which: QUEUED exactly if none of the permanent errors occurs in the text and retries are left |
| `WhatsAppWorker.MessageWorkers.Proceed` | backend/src/jobs/whatsapp/send-message.worker.ts:119-246 | what follows the claim is what each fate leaves of the claimed row |
| `WhatsAppWorker.FateEnds` | backend/src/jobs/whatsapp/send-message.worker.ts:85-246 | what each fate leaves, written out: row, jobs, claims, calls and dead letters |
| `WhatsAppWorker.MessageWorkers.RecoverStaleProcessing` | backend/src/jobs/messaging/message-recovery.worker.ts:38-117 | every stale PROCESSING message takes exactly the recovery step, up to where the pass dies, every other is untouched |
| `WhatsAppWorker.MessageWorkers.RecoverOne` | backend/src/jobs/messaging/message-recovery.worker.ts:48-115 | one recovered message takes exactly the recovery step: QUEUED with one retry more and a job of its own below the limit, FAILED with a dead letter at it |
| `WhatsAppWorker.MessageWorkers.RecoverStaleQueued` | backend/src/jobs/messaging/message-recovery.worker.ts:124-158 | each listed QUEUED message gets the job of a stale row, every other message and every row is as before |
| `CampaignTheorems.ActiveNeverGrows` | backend/src/events/handlers/campaign-events.handler.ts:36-114 | PENDING plus QUEUED never grows, however batch workers, crashes and event handlers interleave |
| `CampaignTheorems.CompletionIsSound` | backend/src/events/handlers/campaign-events.handler.ts:155-208 | in every run, executors included, the handlers' separate count and compare-and-set complete the campaign at most once and with nobody PENDING or QUEUED; without an executor's write that is the only completion, announced at most once |
| `CampaignTheorems.CompletionSoundIff` | backend/src/jobs/campaign/campaign-executor.worker.ts:88-105 | over every run a COMPLETED campaign never has anybody PENDING or QUEUED exactly if no executor's compare-and-set succeeds while somebody is QUEUED, although it looked for PENDING ones at an earlier statement |
| `CampaignTheorems.Announcements` | backend/src/jobs/campaign/campaign-executor.worker.ts:237-262 | announcements are exactly the handlers' completions and all executors' writes, successful or not |
| `CampaignTheorems.CompletedTooEarly` | backend/src/jobs/campaign/campaign-executor.worker.ts:237-262 | a run that completes a campaign with its recipient QUEUED and announces it twice |
| `CampaignTheorems.OneMessagePerContact` | backend/src/jobs/campaign/campaign-batch.worker.ts:153-232 | over all runs and re-runs stopped anywhere, one message per contact at most, and every send job is for a message linked to its own recipient |
| `CampaignTheorems.FinishedBatchHasNoPending` | backend/src/jobs/campaign/campaign-batch.worker.ts:71-103 | after a batch run that reached its end nobody in the batch is PENDING, in any later state |
| `CampaignTheorems.PublishedIff` | backend/src/jobs/campaign/campaign-batch.worker.ts:153-166 | a created message can still get its send job exactly if it has it or the live worker that created it is on its way |
| `CampaignTheorems.StrandedMessage` | backend/src/jobs/campaign/campaign-batch.worker.ts:156-232 | a run ending in a QUEUED recipient whose message no batch run will ever publish |
| `CampaignProgress.HeldUp` | backend/src/jobs/messaging/message-recovery.worker.ts:48-81 | a QUEUED recipient that no worker is at stays so, and the campaign is not completed, in every run without an event about its message and without an executor's write |
| `CampaignProgress.CompletesOnEvent` | backend/src/events/handlers/campaign-events.handler.ts:155-208 | one event about the last active recipient can complete a running campaign |
| `CampaignProofs.InvStep` | backend/src/jobs/campaign/campaign-batch.worker.ts:54-240 | every step keeps the invariant: links, published jobs, what each live worker's list covers, what handlers hold |
| `CampaignProofs.CompletionStep` | backend/src/events/handlers/campaign-events.handler.ts:155-208 | every step keeps: a handler that counted nobody and an executor that saw nobody PENDING are still right, a handler completes once, announcements match |
| `CampaignRun.PendingIn` | backend/src/modules/campaigns/infrastructure/repositories/campaign-recipient.repository.ts:55-66 | the query for a batch: exactly its PENDING recipients, each once |
| `CampaignRun.MessageFor` | backend/src/jobs/campaign/campaign-batch.worker.ts:153-158 | finds the contact's message exactly if there is one |
| `CampaignBatch.CampaignBatchWorker.Handle` | backend/src/jobs/campaign/campaign-batch.worker.ts:54-104 | run to its end: nobody in the batch stays PENDING, the old pending split exactly into skipped, queued and failed, failedCount grows by the failed; stopped by an exception while one failure was written up: the same of the recipients before it, those after untouched; in both cases nobody else is touched and links stay sound; run to its end, each recipient ends SKIPPED, QUEUED or FAILED as its contact and the statements that threw decide, FAILED only if one threw; and if none did, the new messages are exactly those of the valid contacts that had none, the new jobs exactly theirs, and every QUEUED recipient is linked to its contact's message |
| `CampaignBatch.CampaignBatchWorker.ProcessRecipient` | backend/src/jobs/campaign/campaign-batch.worker.ts:106-240 | skipped with nothing created; or linked to its existing message with no job; or one new message, linked, with its job |
| `CampaignBatch.CampaignBatchWorker.HandleRecipient` | backend/src/jobs/campaign/campaign-batch.worker.ts:84-102 | a recipient is SKIPPED if its contact is invalid, QUEUED and linked if it is valid and nothing throws, FAILED and counted exactly if something does; a message is made exactly if the contact had none and its creation is reached, a job exactly if its publish is; only an exception while writing up a failure escapes |
| `CampaignBatch.CampaignBatchWorker.ProcessList` | backend/src/jobs/campaign/campaign-batch.worker.ts:79-103 | the loop over the list leaves each recipient so, in order, and its messages and jobs are exactly those of the recipients before the one it stops at |
| `CampaignBatch.NewIfNothingThrows` | backend/src/jobs/campaign/campaign-batch.worker.ts:106-240 | if nothing throws, exactly one message for each valid contact of the list that had none |
| `CampaignBatch.AllMade` | backend/src/jobs/campaign/campaign-batch.worker.ts:106-240 | so the batch's new messages and jobs are exactly those |
| `CampaignBatch.CampaignBatchWorker.UpdateStatus` | backend/src/modules/campaigns/infrastructure/repositories/campaign-recipient.repository.ts:68-82 | one recipient's status, and its link only if given; links and published jobs stay sound |
| `CampaignBatch.TallySplits` | backend/src/jobs/campaign/campaign-batch.worker.ts:83-103 | settled recipients split exactly into the three outcomes |
| `CampaignEvents.ScriptEffect` | backend/src/events/handlers/campaign-events.handler.ts:36-114 | an undisturbed event is a run of the campaign and completes it exactly if its own write leaves nobody active |
| `CampaignEvents.CampaignEventsHandler.HandleMessageSent` | backend/src/events/handlers/campaign-events.handler.ts:37-48 | the handler's code is that run, and nothing for other messages: the linked recipient becomes SENT, everybody else is unchanged, and the campaign is completed exactly if it was running and nobody is left PENDING or QUEUED |
| `CampaignEvents.CampaignEventsHandler.HandleMessageDelivered` | backend/src/events/handlers/campaign-events.handler.ts:51-61 | the same for a delivery, with DELIVERED |
| `CampaignEvents.CampaignEventsHandler.HandleMessageRead` | backend/src/events/handlers/campaign-events.handler.ts:64-72 | the same for a read, which changes no recipient |
| `CampaignEvents.CampaignEventsHandler.HandleMessageFailed` | backend/src/events/handlers/campaign-events.handler.ts:75-93 | the same for a failure, with FAILED from three retries on; below that it changes nothing |
| `CampaignEvents.CampaignEventsHandler.HandleMessageDeadLettered` | backend/src/events/handlers/campaign-events.handler.ts:96-114 | the same for a dead letter: the linked recipient is FAILED, written once |
| `CampaignEvents.CampaignEventsHandler.EmitProgressAndCheckCompletion` | backend/src/events/handlers/campaign-events.handler.ts:155-210 | completes and announces exactly if running with nobody active |
| `CampaignLaws.EventsDecide` | backend/src/events/handlers/campaign-events.handler.ts:36-114 | over every run, batch workers and executors included: no more recipients SENT than sent events, DELIVERED than delivery events, FAILED than failure events, dead letters and exceptions, SKIPPED than invalid contacts; no more messages than valid ones |
| `CampaignLaws.NobodyFails` | backend/src/events/handlers/campaign-events.handler.ts:75-114 | so without a final failure, a dead letter or an exception nobody is ever FAILED |
| `CampaignExecutor.AudienceBatchSize` | backend/src/jobs/campaign/campaign-executor.worker.ts:173-186 | batch b of n contacts holds n - 50(b - 1) recipients, cut to 0..50 |
| `CampaignExecutor.AudienceBatches` | backend/src/jobs/campaign/campaign-executor.worker.ts:173-186 | batches are 1 to n/50 rounded up, all but the last full, none empty |
| `CampaignExecutor.CampaignExecutorWorker.InsertChunks` | backend/src/jobs/campaign/campaign-executor.worker.ts:173-186 | inserting chunk by chunk is inserting the whole audience in order, for every chunk size; if a chunk fails, a first part of it |
| `CampaignExecutor.CampaignExecutorWorker.BulkCreate` | backend/src/modules/campaigns/infrastructure/repositories/campaign-recipient.repository.ts:33-47 | the table becomes the merge of table and rows, for all tables and rows |
| `CampaignExecutor.MergeKeeps` | backend/src/modules/campaigns/infrastructure/repositories/campaign-recipient.repository.ts:33-47 | merging keeps every row, brings every contact in, each once, and nothing else |
| `CampaignExecutor.MergeNew` | backend/src/modules/campaigns/infrastructure/repositories/campaign-recipient.repository.ts:33-47 | new and different contacts are all added, in order |
| `CampaignExecutor.CampaignExecutorWorker.ResolveAndCreateRecipients` | backend/src/jobs/campaign/campaign-executor.worker.ts:145-194 | empty and oversized audiences are refused before any write; any other ends up in the table, or a first part of it if a chunk fails |
| `CampaignExecutor.CampaignExecutorWorker.DispatchBatches` | backend/src/jobs/campaign/campaign-executor.worker.ts:196-235 | exactly the batches with somebody PENDING, once each, increasing, the k-th delayed 2k seconds; the first of them if a publish fails |
| `CampaignExecutor.ReleaseRate` | backend/src/jobs/campaign/campaign-executor.worker.ts:216-234 | at most 50(t/2 + 1) recipients are released within t seconds, also on a re-dispatch |
| `CampaignExecutor.ReleasedByJobs` | backend/src/jobs/campaign/campaign-executor.worker.ts:216-234 | nor more than 50 for each job |
| `CampaignExecutor.CampaignExecutorWorker.Handle` | backend/src/jobs/campaign/campaign-executor.worker.ts:48-143 | which campaigns are left alone, failed, completed or dispatched, with table, jobs, status and announcements, wherever a call throws: before the try block, in it, or in the catch; an existing table is never added to; and, nothing throwing, a first launch of 1 to 100,000 contacts leaves recipient g PENDING and without a message in batch g/50 + 1, and the job of batch k delayed by 2(k - 1) seconds; any other number is FAILED with nothing written; a later launch completes exactly if nobody is PENDING |
| `CampaignExecutor.FreshDispatch` | backend/src/jobs/campaign/campaign-executor.worker.ts:196-235 | the pending batches of a fresh audience of n are 1, 2, 3 up to n/50 rounded up |
| `CampaignExecutor.Undisturbed` | backend/src/jobs/campaign/campaign-executor.worker.ts:48-143 | what the outcomes come to when nothing throws |
| `CampaignExecutor.CampaignExecutorWorker.CompleteCampaign` | backend/src/jobs/campaign/campaign-executor.worker.ts:237-262 | completes if running and announces whether or not it did, unless a call throws |
| `CampaignExecutor.CampaignExecutorWorker.Try` | backend/src/jobs/campaign/campaign-executor.worker.ts:88-108 | what the try block leaves, and whether it throws |
| `CampaignExecutor.CampaignExecutorWorker.Fail` | backend/src/jobs/campaign/campaign-executor.worker.ts:110-142 | FAILED if still running, and announced in any case, unless the catch block throws |
| `ScheduledMessageTheorems.OneBoundedChain` | backend/src/jobs/scheduler/scheduled-message.worker.ts:43-201 | with any number of checkers, deaths, exceptions and redeliveries: one hand-off at most, and four session checks, seventy seconds of delay and one send job for it and for each redelivery |
| `ScheduledMessageTheorems.CheckDecides` | backend/src/jobs/scheduler/scheduled-message.worker.ts:131-203 | over every run: no more send jobs than checks that found the session connected, at most forty seconds of delay for each that found it down, FAILED only after such a one or an exception, SENT only after one that found it connected |
| `ScheduledMessageTheorems.SentTwice` | backend/src/jobs/scheduler/scheduled-message.worker.ts:174-201 | the redelivery count is needed: a run that publishes two send jobs |
| `ScheduledMessageTheorems.ChainEnds` | backend/src/jobs/scheduler/scheduled-message.worker.ts:97-247 | in every run, deaths and redeliveries included: a message with no job of it left is SENT with a send job, one only unless redelivered; FAILED with none, unless redelivered or an exception at the last retry; or CANCELLED |
| `ScheduledMessageTheorems.SentAfterDeath` | backend/src/jobs/scheduler/scheduled-message.worker.ts:97-201 | such a run in which an execution dies and the redelivered one sends |
| `ScheduledMessageTheorems.CancelledIsNotSent` | backend/src/modules/scheduler/application/use-cases/cancel-scheduled-message.use-case.ts:38-68 | if cancellations fall between executions no send job is published while the message is CANCELLED |
| `ScheduledMessageTheorems.SentAfterCancelIff` | backend/src/jobs/scheduler/scheduled-message.worker.ts:98-201 | a cancelled message can still be sent exactly if a live execution had loaded it and not published yet |
| `ScheduledMessageTheorems.CancelledYetSent` | backend/src/jobs/scheduler/scheduled-message.worker.ts:98-201 | a run from the start in which that happens |
| `ScheduledMessageTheorems.CanEndIff` | backend/src/jobs/scheduler/scheduled-message.worker.ts:51-79 | a QUEUED message can be sent or failed without an operator exactly if a live checker is about to publish it, a live delivery has not made its last write, or the queue may deliver its job again |
| `ScheduledMessageTheorems.HandOffDies` | backend/src/jobs/scheduler/scheduled-message.worker.ts:51-79 | a run whose checker dies between compare-and-set and publish and which can never end |
| `ScheduledMessage.InvStep` | backend/src/jobs/scheduler/scheduled-message.worker.ts:43-247 | every statement, exception, death and redelivery keeps the budgets of checks, delay and sends |
| `ScheduledMessageWorker.Worker.CheckDueMessages` | backend/src/jobs/scheduler/scheduled-message.worker.ts:43-87 | each due PENDING message becomes QUEUED with one execution published, as by the protocol's script; every other row is untouched |
| `ScheduledMessageWorker.Worker.TransitionStatus` | backend/src/modules/scheduler/infrastructure/repositories/scheduler.repository.ts:107-120 | the compare-and-set on one row |
| `ScheduledMessageWorker.Worker.HandleExecute` | backend/src/jobs/scheduler/scheduled-message.worker.ts:89-248 | one execution job, a missing message included, is the protocol's script on its row, wherever a call throws; a QUEUED row, nothing throwing, is SENT with one send more if the session is connected, QUEUED with the next execution published to wait 10 * 2^r seconds if it is not and r is below 3, and FAILED from 3 on |
| `ScheduledMessageWorker.Worker.Catch` | backend/src/jobs/scheduler/scheduled-message.worker.ts:214-247 | below the last retry the exception goes back to the queue, at it a QUEUED row is FAILED |
| `ScheduledMessageWorker.ExecutionEffect` | backend/src/jobs/scheduler/scheduled-message.worker.ts:97-247 | what an undisturbed execution leaves, branch by branch, exceptions included; what the session check decides is in `HandleExecute` and `CheckDecides` |
| `WebhookDelivery.AttemptBound` | backend/src/jobs/webhook/webhook-delivery.worker.ts:139-162 | attempts are at most max(1, maxRetries) plus duplicated jobs; scheduled delays add up to 10(2^r - 1) |
| `WebhookDelivery.AllAttemptsFail` | backend/src/jobs/webhook/webhook-delivery.worker.ts:139-182 | when every attempt fails, exactly max(1, maxRetries) attempts, the full backoff, FAILED, one failure counted |
| `WebhookDelivery.BreakerIsExact` | backend/src/jobs/webhook/webhook-delivery.worker.ts:163-182 | failureCount is the number of exhausted deliveries since the last success or re-enabling, over all deliveries; ten or more leave the webhook disabled |
| `WebhookDelivery.SuccessIsAbsorbing` | backend/src/jobs/webhook/webhook-delivery.worker.ts:57-60 | a delivery that a handler run leaves SUCCESS stays so and is not attempted again |
| `WebhookDelivery.SuccessIff` | backend/src/jobs/webhook/webhook-delivery.worker.ts:81-137 | over every run a delivery becomes SUCCESS exactly if an attempt was answered with 2xx and written up without an exception |
| `WebhookDelivery.AnsweredYetFailed` | backend/src/jobs/webhook/webhook-delivery.worker.ts:106-137 | a run in which every attempt is answered with 2xx and the delivery is sent twice, FAILED and counted as exhausted |
| `WebhookDelivery.InvStep` | backend/src/jobs/webhook/webhook-delivery.worker.ts:48-192 | every job, duplicate, re-enabling and deletion keeps each delivery's attempt budget and the breaker exact |
| `WebhookDelivery.WebhookDeliveryWorker.HandleDelivery` | backend/src/jobs/webhook/webhook-delivery.worker.ts:48-182 | the worker's code is the protocol's step, a missing delivery and an exception while the answer is written up included |
| `WebhookDelivery.DeliverIs` | backend/src/jobs/webhook/webhook-delivery.worker.ts:57-182 | that step in literal statuses: a delivered one is left alone, a disabled or deleted webhook's is FAILED without an attempt, an answer written up is SUCCESS, any other attempt is retried after 10 * 2^r seconds below the limit and at it FAILED and charged to the webhook, which the tenth disables |
| `WebhookDelivery.NothingAfterDeletion` | backend/src/jobs/webhook/webhook-delivery.worker.ts:62-70 | from a webhook's deletion on, over every run, no delivery of it is attempted, waits or succeeds any more |
| `WebhookDelivery.SwitchIs` | backend/src/modules/settings/application/use-cases/manage-webhooks.use-case.ts:117-125 | only enabling a disabled webhook starts its failure count afresh |
| `WebhookDelivery.WebhookDeliveryWorker.WriteUpAnswer` | backend/src/jobs/webhook/webhook-delivery.worker.ts:106-137 | what is written before such an exception |
| `Automation.AutomationEvaluatorWorker.RunActions` | backend/src/jobs/automation/automation-evaluator.worker.ts:90-131 | exactly the immediate actions up to and including the first that fails or throws are executed, exactly the delayed ones before it queued, in order, one result each |
| `Automation.AutomationEvaluatorWorker.Conclude` | backend/src/jobs/automation/automation-evaluator.worker.ts:133-187 | FAILED exactly if the last result fails, with its error in log and event |
| `Automation.AutomationEvaluatorWorker.Try` | backend/src/jobs/automation/automation-evaluator.worker.ts:50-196 | which exception leaves the try block, of an action, a publish or a store call, and what was written before |
| `Automation.AutomationEvaluatorWorker.Handle` | backend/src/jobs/automation/automation-evaluator.worker.ts:40-225 | skipped rules change only the log; FAILED exactly if the last result fails or something throws, with that error; results and count already written stay; the exception is announced and passed on, unless logging it throws; and, no other call throwing: COMPLETED with every action executed or queued if none fails or throws, otherwise FAILED with the error of the first that does, the actions up to it executed and the delayed ones before it queued, one literal result for each unless it threw |
| `Automation.FailureIsTheLastResult` | backend/src/jobs/automation/automation-evaluator.worker.ts:133-155 | some result fails exactly if the last one does, and the joined error is that one's |
| `Automation.WellEnds` | backend/src/jobs/automation/automation-evaluator.worker.ts:90-155 | if no action fails or throws, all are visited, and no result is a failure |
| `Automation.HaltEnds` | backend/src/jobs/automation/automation-evaluator.worker.ts:93-155 | otherwise the first that does ends the loop, and its error is the run's |
| `Automation.ImmediateInOrder` | backend/src/jobs/automation/automation-evaluator.worker.ts:93-133 | each action that is not delayed stands among the executed ones after exactly those before it that are not delayed |
| `Automation.DelayedInOrder` | backend/src/jobs/automation/automation-evaluator.worker.ts:93-120 | and each delayed one among the queued |
| `Automation.Visited` | backend/src/jobs/automation/automation-evaluator.worker.ts:92-131 | the visited actions end at the first that throws, delayed or not, or that is immediate and fails, or at the end |
| `Automation.ExecutedOncePerDelivery` | backend/src/jobs/automation/automation-evaluator.worker.ts:50-131 | over redeliveries, an action runs once in exactly those in which nothing throws before the loop, no earlier action or publish throws and no earlier immediate action fails |
| `Automation.ExecutedAtMostOnceIff` | backend/src/jobs/automation/automation-evaluator.worker.ts:92-131 | and at most once in all exactly if no two deliveries get as far as it |
| `Automation.EarlierAtLeastAsOften` | backend/src/jobs/automation/automation-evaluator.worker.ts:92-131 | no action runs more often than one before it |
| `SocketRegistry.RegistryIsExact` | backend/src/infrastructure/websocket/websocket.gateway.ts:50-115 | both maps hold exactly the registered sockets, grouped, with no empty entry; online exactly while one is registered; broadcasts about a user strictly alternate and end with the present state |
| `SocketRegistry.InvStep` | backend/src/infrastructure/websocket/websocket.gateway.ts:36-115 | connection, token check, joining, registration and disconnect at any moment keep indexes and broadcasts exact |
| `SocketRegistry.EqualTotals` | backend/src/infrastructure/websocket/websocket.gateway.ts:59-68 | both maps have one entry for each registered socket |
| `SocketRegistry.UnregisterIs` | backend/src/infrastructure/websocket/websocket.gateway.ts:88-115 | a disconnection takes the socket out of both maps, and their keys if it was the only one, and broadcasts offline exactly if it was its user's only one |
| `SocketRegistry.NoStaleEntryIff` | backend/src/infrastructure/websocket/websocket.gateway.ts:46-68 | all registered sockets are connected exactly if none registered after its own disconnect; each that did stays and keeps its user online |
| `SocketRegistry.LateJoinExample` | backend/src/infrastructure/websocket/websocket.gateway.ts:46-68 | runs in which that happens, while the token is checked or while joining, given that those calls let other events in |
| `SocketRegistry.PromptSetUpIsSafe` | backend/src/infrastructure/websocket/websocket.gateway.ts:46-68 | if no socket drops while its connection is set up, every registered socket is connected |
| `WebSocketGateway.AppWebSocketGateway.HandleConnection` | backend/src/infrastructure/websocket/websocket.gateway.ts:36-86 | the maps and broadcasts become those of the registry's registration: the socket is added under its user and its organisation, online is broadcast exactly if the user had no other; a refused socket changes nothing |
| `WebSocketGateway.AppWebSocketGateway.HandleDisconnect` | backend/src/infrastructure/websocket/websocket.gateway.ts:88-115 | the same for its removal |
| `WebSocketGateway.AppWebSocketGateway.UserOnline` | backend/src/infrastructure/websocket/websocket.gateway.ts:145-147 | answers whether the registry has the user online |
| `BillingPeriod.MonthlyPeriodLength` | backend/src/jobs/billing/billing-cycle.worker.ts:140-147 | for every start date a monthly period lasts as many days as the month it starts in |
| `BillingPeriod.MonthlyEndDate` | backend/src/jobs/billing/billing-cycle.worker.ts:145-147 | it ends on the same day of the next month exactly if that month has it, else at most three days into the month after |
| `BillingPeriod.YearlyPeriodLength` | backend/src/jobs/billing/billing-cycle.worker.ts:143-144 | a yearly period is 366 days exactly if a 29 February lies between the two month starts, else 365 |
| `BillingPeriod.YearlyEndDate` | backend/src/jobs/billing/billing-cycle.worker.ts:143-144 | it ends on the same date a year later, except 29 February, which gives 1 March |
| `BillingPeriod.RenewalPeriod` | backend/src/jobs/billing/billing-cycle.worker.ts:140-147 | the mutated date ends up at the end those lemmas are about |
| `BillingPeriod.JsDate.GetFullYear` | backend/src/jobs/billing/billing-cycle.worker.ts:144 | a search from a first guess finds the one year the day lies in (section 15.9.1.3 of ECMA-262 5.1) |
| `BillingPeriod.JsDate.GetMonth` | backend/src/jobs/billing/billing-cycle.worker.ts:146 | a search over the months finds the one the day lies in |
| `BillingPeriod.JsDate.SetMonth` | backend/src/jobs/billing/billing-cycle.worker.ts:146 | MakeDay of the old year and date with the new month, overflow included |
| `BillingPeriod.JsDate.SetFullYear` | backend/src/jobs/billing/billing-cycle.worker.ts:144 | MakeDay of the old month and date with the new year |
| `Calendar.DayRoundTrip` | backend/src/jobs/billing/billing-cycle.worker.ts:142-147 | MakeDay (section 15.9.1.12 of ECMA-262 5.1) of a day's year, month and date is that day |
| `Calendar.DateRoundTrip` | backend/src/jobs/billing/billing-cycle.worker.ts:142-147 | and the fields of a calendar date's day are that date |
| `Calendar.MonthTable` | backend/src/jobs/billing/billing-cycle.worker.ts:142-147 | the months' lengths, February's by the Gregorian rule |
| `Calendar.MonthsFollow` | backend/src/jobs/billing/billing-cycle.worker.ts:142-147 | a year starts with its first month and every month where the one before ends |
| `Calendar.Epoch` | backend/src/jobs/billing/billing-cycle.worker.ts:142-147 | the days on which 1900, 1970 and 2000 begin; with the two above, every day's number |
| `Base64.DecodeEncode` | backend/src/common/services/encryption.service.ts:45-61 | base64 (section 4 of RFC 4648) decodes what it encodes, for every byte string |
| `Base64.EncodeShape` | backend/src/common/services/encryption.service.ts:45-49 | encodings are whole groups of four over the alphabet and the padding sign |
| `Base64.EncodeIsBase64` | backend/src/common/services/encryption.service.ts:45-49 | character by character: the letter of the alphabet, written out, for six bits of a group of three bytes, and padding signs where no bit is left (section 4 of RFC 4648) |
| `Base64.ValueTable` | backend/src/common/services/encryption.service.ts:59-61 | what the decoder takes each character for, both alphabets of RFC 4648 |
| `EncryptionEnvelope.SplitJoin` | backend/src/common/services/encryption.service.ts:45-53 | parts without colons come back exactly from join and split |
| `EncryptionEnvelope.EnvelopeSplits` | backend/src/common/services/encryption.service.ts:45-58 | every envelope splits into the three encodings it was made of |
| `EncryptionEnvelope.DecryptEncrypt` | backend/src/common/services/encryption.service.ts:33-74 | decrypt undoes encrypt for every text, the empty one included |
| `EncryptionEnvelope.EnvelopeLayout` | backend/src/common/services/encryption.service.ts:45-49 | an envelope is initialisation vector, tag and ciphertext in base64, in this order, with colons between |
| `EncryptionEnvelope.EnvelopeReads` | backend/src/common/services/encryption.service.ts:52-74 | three parts are read in this order, and refused exactly if the tag does not authenticate |
| `EncryptionEnvelope.BadFormatIff` | backend/src/common/services/encryption.service.ts:53-56 | a text is refused as malformed exactly if it has not two colons |
| `EncryptionEnvelope.FieldRoundTrip` | backend/src/modules/messages/domain/services/message-encryption.service.ts:14-28 | every field value reads back as written, absent, empty and envelope-like ones included |
| `EncryptionEnvelope.FieldReads` | backend/src/modules/messages/domain/services/message-encryption.service.ts:20-43 | any field of three parts reads as stored unless it has an envelope's lengths and its tag authenticates, and then as the text inside |
| `EncryptionEnvelope.IsEncryptedIff` | backend/src/modules/messages/domain/services/message-encryption.service.ts:37-43 | a text is taken for an envelope exactly if it has two colons with 16 or 17 base64 letters before the first and 22 between them, up to a padding sign in each |
| `EncryptionEnvelope.WordsTakenForEnvelope` | backend/src/modules/messages/domain/services/message-encryption.service.ts:34-43 | ordinary words of the right length are taken for an envelope |

## Left out

- Receipts of the channels' webhooks, which move a SENT channel row to DELIVERED, READ or FAILED and record events of their own.
- Receipts between the statements of a WhatsApp handler: they are steps beside whole handler runs, in `WhatsAppDelivery`.
- The limit of fifty rows and the order of a recovery pass, and the retry time recovery sets.
- Exceptions in a socket's set-up after its registration; before it they are `FailJoin`.
- Dead-letter reprocessing, and pausing, resuming and cancelling campaigns: further writers of the same rows.
- Campaign counters on the event path: duplicate and overlapping events are not guarded against, so the code gives no exact counts.
- Overlapping runs of the same batch: the batch job's singleton key is taken to exclude them.
- Deleted rows: updates and queries filter on `deletedAt`; rows are not deleted during the runs.
- The audience query, message bodies and template interpolation, priorities, audit log, notifications and log lines.
- `CampaignExecutor.CampaignExecutorWorker.Handle`: contacts in one audience are distinct and the audience's total is their number.
- `CampaignExecutor.CampaignExecutorWorker.DispatchBatches`: lists what is published; on a re-dispatch the queue drops a batch job whose singleton key is still taken.
- `WebhookDelivery.AttemptBound`: a handler run is one step here; two handlers of the same delivery do not interleave.
- `WhatsAppDelivery.EveryRunEnds`: runs in which the limiter refuses for ever, handlers keep dying before their claim, the store fails after the id was stored, or the provider reports failures again and again, do not end.
- `ScheduledMessageWorker.Worker.HandleExecute`: the retry count kept on the row for display is not part of the row here; nothing reads it.
- The cipher, the random initialisation vector and the check of the key's length: the cipher is an abstract inverse pair.
- Renewal and payment, service-level deadlines, sequences, lead ads, session reconnection, rate limiting: other state machines, partly decided outside these files.
- Time of day, daylight saving and the range limits of dates.
- Lower-casing beyond ASCII.
- Controllers, guards, module wiring and the two front ends.
