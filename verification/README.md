# Verification of the durable command and outbox protocol

This project models how the backend executes commands exactly once and delivers their events
through leased outbox workers, and proves properties of that model with Dafny 4.11. Run
`dafny verify dfyconfig.toml` to check all of it.

## What is modelled

The core is one concurrent system over three sets of rows.

* **The dispatcher** (`CommandRequests`, `Dispatcher`, `DispatcherStore`, `DispatchLog`,
  `DispatchHistory`, `DispatchProtocol`, `DispatchInvariant`, `DispatchSteps`, `DispatchCallers`,
  `DispatchOutcomes`, `DispatchAlone`). A command runs in one transaction: look up the receipt,
  insert a PROCESSING receipt in a savepoint, re-read after a collision, run the handler, append
  events and outbox messages, complete the receipt, commit. `Dispatcher.Dispatched` is one dispatch
  on its own; `DispatcherStore.CommandDispatcher` performs it statement by statement on tables it
  changes in place. `DispatchProtocol` lets any number of transactions interleave under READ
  COMMITTED and crash anywhere; its main theorem, `Linearizable`, says that every such run leaves
  the tables and gives the replies of some one-at-a-time run, in an order that respects time. The
  rest of the idempotence contract is proved about such sequences: one committed outcome per key and
  per command id, verbatim replays, reuse decided by the meaning of the payload alone.
  `DispatchOutcomes` goes back to the handler's own return value: all of it is committed and
  reported, or nothing. `DispatchAlone` shows that every dispatch on its own is such a run, so the
  theorems about runs are not about too few of them.
* **Other writers** (`OtherWriters`, `DispatchTopics`). Four places write events without the
  dispatcher and without a receipt, three of them with messages on topics of their own: the export
  of a submission package, the recording of BOAMP ingestions and of BOAMP qualifications, and
  (without a message) the optimizer's runs. In the model any such transaction may commit between
  any two steps of the dispatcher.
* **The outbox workers** (`RetryPolicy`, `EventContracts`, `Outbox`, `PayloadContracts`,
  `WorkerOutcomes`, `OutboxStore`, `ClaimRounds`, `LeaseProtocol`, `LeaseInvariants`, `LeaseMarks`,
  `LeaseDelivery`, `LeaseTightness`, `LeaseLateWorkers`, `LeaseRepeats`, `LeaseBackoff`,
  `LeaseAlone`). Five kinds of workers claim due rows under a lease, act outside with no lock held,
  and settle the row in a second transaction. `LeaseProtocol` is a step machine in which time
  passes, leases overlap and workers crash between any two steps. Proved are a conservation law for
  deliveries, the bound on attempts (and that it is reached), at most one publication, when exactly
  a closed row changes, how long a failed message rests, and what a lease discipline adds.
* **Retention of staged objects** (`StagedObjects`, `StagingExpiry`, `StagingSweep`, `SweepFresh`,
  `ExpiryMessages`, `DurableSystem`, `DurableDelivery`, `DurableRetention`, `DurableDeletion`,
  `DurablePublications`). The SQL triggers are a transition relation; the expiry sweep goes through
  the dispatcher with derived command ids; the retention worker looks an object up and later deletes
  its bytes without a lock. `DurableSystem` composes all of this. Shown of it is that deletion never
  hits a live object, that the bytes of a rejected or expired object are deleted where a message
  names it, why a retention message is published, and which messages stand for committed commands.

`Json`, `JsonInjectivity`, `Text` and `Uuids` give the texts involved: the canonical JSON of
RFC 8259 (sections 4, 5 and 7) and the UUID text of RFC 9562 (section 4). Three smaller modules
stand alone: `RootRepository` (optimistic revisions), `AuthSession` (the sliding session window)
and `Provenance` (append-only tables checked at insertion).

How the source maps onto the model: rows are datatypes in maps keyed by their primary key;
transactions are atomic steps, split wherever the source commits or lets others in; an insert into
a taken unique key waits until the other transaction has ended; rows locked FOR UPDATE stay locked
until the end. Clocks, random ids and the answers of outside services are parameters.

A command handler is an abstract program: it goes by its command, its context and what it has seen
so far, and either locks one more row, or asks for something without a lock (a row read without FOR
UPDATE, the result of a query, a `uuid4()`), or returns or raises. So it may choose its locks from
rows it has read, and draw ids. The order of one-at-a-time decisions in `Linearizable` reruns each
handler on the locked rows as they are at its place, and tells it again what it was told without a
lock. The expiry handler is written out.

An event row in the model carries a mark `writer` that tells the dispatcher's events from those of
other code; the table has no such column, and `DurableDelivery.DeliveredMeansCommitted` shows that
the topic of a message tells the same.

## Where code and documentation disagree

* "Exactly once per outbox row" (backend/app/workers/cockpit_projection.py:71) holds of the
  PUBLISHED transition, not of the outside effect. `LeaseRepeats.DeliveredTwiceByCrash` is a run of
  one punctual worker that delivers a message twice, `DeliveredTwiceByStall` one of two workers
  without any crash. `LeaseDelivery.FirstDeliveryExactly` says when a delivery is the first of its
  message and `OnceExactly` when a published message was delivered once; for workers that keep to
  their leases, `PunctualRepeatExactly` and `PunctualOnceExactly` say that this fails exactly if
  some worker crashed or stalled between the acceptance of a delivery and its commit.
* A retention message may be PUBLISHED although nothing was deleted for it:
  `LeaseRepeats.PublishedWithoutDeletion`. `LeaseDelivery.DeliveriesAccounted` counts these apart.
* FAILED and NOT_CONFIGURED read like final states, but a worker that comes late may still publish
  such a message: `LeaseLateWorkers.FailedIsPublished` and `NotConfiguredIsPublished` are runs in
  which it happens. `LeaseDelivery.ClosedOverwrittenExactly` and `ClosedChangesExactly` say exactly
  which steps do it, and `PunctualClosedIsFinal` that none does while workers keep to their leases.
* The column `next_attempt_at` reads as the time of the next retry, but the export stores its new
  messages with it (backend/app/modules/submission/application/service.py:201-230), so a PENDING row
  may have it too. `LeaseMarks.RetryMarkExactly` says when it is set iff the row is RETRY: if the
  message was stored without it, or has been claimed since; `ExportsAreMarked` gives the rows that break it.
* Not every delivered message goes back to a command receipt. `DurableDelivery.DeliveredMeansCommitted`
  tells by the topic which ones do, and `ExportWithoutReceipt` gives a message that does not.
* The states the staging handlers put into cockpit events, QUARANTINED and CLEAN, are not among
  those the cockpit worker allows: `EventContracts.StagingCockpitEventsRefused`.
* A requirement source's document is checked against its version only at insertion; nothing
  freezes the version of the document afterwards: `Provenance.VersionLinkLostExactly` says which
  statements break the link, `VersionCanBeMovedExactly` when one exists, and `VersionLinkIsLost` is
  a run that ends with a broken one.

## Model

| member | source | states |
|---|---|---|
| `Text.NatTextPrefix` | backend/app/platform/events/dispatcher.py:317-322 | decimal texts followed by a non-digit determine the number and what follows |
| `Text.HexRoundTrip` | backend/app/platform/events/dispatcher.py:317-322 | reading back the four hex digits of a `\u` escape gives the code unit |
| `JsonInjectivity.CanonMeaning` | backend/app/platform/events/dispatcher.py:317-322 | sorting the keys at every level identifies exactly the documents with the same meaning |
| `JsonInjectivity.EscapePrefix` | backend/app/platform/events/dispatcher.py:317-322 | no escaped character is the beginning of another one's escape, so string texts decode uniquely |
| `JsonInjectivity.EncodePrefix` | backend/app/platform/events/dispatcher.py:317-322 | no encoded document is a proper prefix of another, whatever follows |
| `JsonInjectivity.DumpsFaithful` | backend/app/platform/events/dispatcher.py:317-322 | two JSON values have the same canonical text iff they denote the same value |
| `CommandRequests.SemanticGet` | backend/app/platform/events/dispatcher.py:308-316 | filtering the dump drops the three transport ids and nothing else |
| `CommandRequests.RequestTextFaithful` | backend/app/platform/events/dispatcher.py:308-323 | two commands have the same request text iff same type and equal payloads, whatever field order and transport ids |
| `Uuids.ParseFormat` | backend/app/workers/cockpit_projection.py:252-258 | every UUID is read back from its text |
| `EventContracts.EnvelopeFields` | backend/app/platform/events/dispatcher.py:266-273 | the envelope holds exactly six entries with the event's id, type, aggregate, revision and data |
| `EventContracts.EnvelopeRoundTrip` | backend/app/workers/cockpit_projection.py:208-249 | the worker decodes exactly the event the dispatcher wrote, and refuses every event outside the allow-list |
| `EventContracts.StagingCockpitEventsRefused` | backend/app/modules/dce/application/handlers.py:317-333 | every staging event sent to the cockpit topic is refused by the cockpit worker |
| `EventContracts.StagingRetentionRoundTrip` | backend/app/workers/dce_retention.py:154-162 | a retention message names the object and tenant it was written for |
| `EventContracts.RetentionHearsExactly` | backend/app/modules/dce/application/handlers.py:317-333 | the retention topic gets exactly the staging facts that leave their object REJECTED or EXPIRED, the cockpit topic the others |
| `EventContracts.ExportAccepted` | backend/app/modules/submission/application/service.py:184-215 | the webhook worker accepts the payload of every export |
| `EventContracts.ExportMailAccepted` | backend/app/modules/submission/application/service.py:217-232 | the mail worker accepts the payload of every export |
| `EventContracts.IngestionAccepted` | backend/app/modules/opportunity/infrastructure/boamp_observation_repository.py:183-223 | the event bus accepts the payload of every recorded ingestion |
| `EventContracts.QualificationAccepted` | backend/app/modules/opportunity/infrastructure/boamp_qualification_repository.py:126-166 | the event bus accepts the payload of every recorded qualification |
| `EventContracts.EnvelopesRefusedElsewhere` | backend/app/platform/events/dispatcher.py:266-273 | the dispatcher's envelope is accepted by none of the webhook, mail and bus workers |
| `OtherWriters.ExportAllowed` | backend/app/modules/submission/application/service.py:184-232 | an export's event and two messages are stored iff their ids are unused, and both workers accept what is stored |
| `OtherWriters.ExportLeaves` | backend/app/modules/submission/application/service.py:184-232 | an export leaves one event without a command and both messages, due at once, under their own dedupe keys, and nothing else changes |
| `OtherWriters.IngestionAllowed` | backend/app/modules/opportunity/infrastructure/boamp_observation_repository.py:183-223 | a recorded ingestion is stored iff its ids are unused, and the bus accepts its message |
| `OtherWriters.QualificationAllowed` | backend/app/modules/opportunity/infrastructure/boamp_qualification_repository.py:126-166 | a recorded qualification is stored iff its ids are unused, and the bus accepts its message |
| `Dispatcher.ReceiptRoundTrip` | backend/app/platform/events/dispatcher.py:90-111 | a stored response is replayed verbatim, save for the replayed flag |
| `DispatcherStore.CommandDispatcher.PersistEventsAndOutbox` | backend/app/platform/events/dispatcher.py:255-305 | the loop appends one event row and one message row per pending event, in order, and returns their ids |
| `DispatcherStore.CommandDispatcher.CompleteReceipt` | backend/app/platform/events/dispatcher.py:206-212 | the field assignments turn the PROCESSING receipt into the completed one and touch no other |
| `DispatcherStore.CommandDispatcher.ExecuteHandler` | backend/app/platform/events/dispatcher.py:191-213 | handler, events, messages and receipt together give the specified tables and reply |
| `DispatcherStore.CommandDispatcher.InTransaction` | backend/app/platform/events/dispatcher.py:146-213 | the transaction block agrees with the specification, the PROCESSING receipt leaving no trace |
| `DispatcherStore.CommandDispatcher.Dispatch` | backend/app/platform/events/dispatcher.py:138-221 | in-place execution with rollback equals `Dispatched`, for every request and every interruption |
| `DispatchLog.LinkAll` | backend/app/platform/persistence/models.py:137-143 | new rows, the dispatcher's or other code's, keep one carrying message per event of the dispatcher, an event for every message, and one message per event and topic |
| `DispatchLog.CommitLists` | backend/app/platform/events/dispatcher.py:263-305 | a commit adds its event ids, in order, to its own command's list and to no other |
| `DispatchLog.CommitConsistent` | backend/app/platform/events/dispatcher.py:191-213 | a commit keeps receipts, the dispatcher's events and their messages consistent |
| `DispatchLog.WriteConsistent` | backend/app/modules/submission/application/service.py:184-232 | a transaction of other code that writes events and messages keeps them consistent |
| `DispatchLog.AlwaysConsistent` | backend/app/platform/events/dispatcher.py:157-213 | after any sequence of commands and other writes every receipt is SUCCEEDED and holds its reply, lists exactly the dispatcher's events of its command, and each of those has exactly one message with the same payload and dedupe key |
| `DispatchTopics.OthersAlwaysOff` | backend/app/platform/events/dispatcher.py:290-303 | after any sequence a message on the cockpit or retention topic belongs to an event of the dispatcher |
| `DispatchTopics.OwnAlwaysOn` | backend/app/platform/events/dispatcher.py:56-66 | if handlers announce on these two topics, as all do, the messages of the dispatcher's events are on no other |
| `DispatchHistory.OnlyCommitsWrite` | backend/app/platform/events/dispatcher.py:214-221 | a failed or replayed command leaves every table as it was |
| `DispatchHistory.AtMostOneCommit` | backend/app/platform/persistence/models.py:54-65 | at most one committed outcome per key and per (tenant, command id) |
| `DispatchHistory.RecordHasOrigin` | backend/app/platform/events/dispatcher.py:154-169 | every receipt on record goes back to a committed command with its key |
| `DispatchHistory.ReplyOnRecord` | backend/app/platform/events/dispatcher.py:243-253 | the exact reply to a key on record: the first reply if the request text is equal, else key reused |
| `DispatchHistory.ReuseExactly` | backend/app/platform/events/dispatcher.py:147-155 | a key sent again is replayed iff the payload means the same; nothing is written either way |
| `DispatchHistory.SuccessesAgree` | backend/app/platform/events/dispatcher.py:147-189 | all successful replies for a key are equal except for `replayed`, and go back to one commit |
| `DispatchHistory.CommandIdUnderAnotherKey` | backend/app/platform/events/dispatcher.py:174-185 | a command id used under another key is refused as an unresolved collision, and nothing is written |
| `DispatchHistory.NeverInProgress` | backend/app/platform/events/dispatcher.py:251-253 | CommandInProgressError is never raised |
| `DispatchOutcomes.TalkExactly` | backend/app/platform/events/dispatcher.py:191 | what a handler sees is exactly its own questions, each answered from the tables as they are, until it is done |
| `DispatchOutcomes.ReturnIsCommitted` | backend/app/platform/events/dispatcher.py:191-213 | a new command whose handler returns commits everything returned: every event, in order, as row and message, every write of a held row, the receipt and the reply; or a key or constraint refuses it and nothing is written |
| `DispatchOutcomes.RaiseIsReported` | backend/app/platform/events/dispatcher.py:214-221 | a handler that raises leaves nothing; the caller sees PersistenceFailed for an IntegrityError and CommandFailed for anything else |
| `DispatchOutcomes.CommitGoesBack` | backend/app/platform/events/dispatcher.py:191-213 | over any sequence: each commit goes back to what its handler returned after what it saw there, and carries all of it |
| `DispatchOutcomes.CommittedEventReads` | backend/app/platform/events/dispatcher.py:263-305 | the k-th event the handler returned is the k-th id in the reply, and its message is stored so that a worker reads back that event |
| `DispatchOutcomes.KeyReusedExactly` | backend/app/platform/events/dispatcher.py:243-253 | a caller is told that its key was reused iff an earlier command committed under it with another payload |
| `DispatchOutcomes.EarlyFailures` | backend/app/platform/events/dispatcher.py:131-189 | when exactly a command is unsupported or an unresolved collision; no failure writes anything |
| `DispatchSteps.LookupSound` | backend/app/platform/events/dispatcher.py:147-155 | answering from a committed receipt, or going on without one, keeps the protocol invariant |
| `DispatchSteps.InsertSound` | backend/app/platform/events/dispatcher.py:170-174 | the blocking insert keeps open transactions apart and sees every committed collision |
| `DispatchSteps.RefindSound` | backend/app/platform/events/dispatcher.py:175-189 | the reply after a collision is the one the sequential dispatcher gives at that point |
| `DispatchSteps.LookSound` | backend/app/modules/dce/application/handlers.py:536-562 | one more row locked, or one more thing read without a lock, keeps the protocol invariant: what the handler has seen is what it would see now |
| `DispatchSteps.HandlerSound` | backend/app/platform/events/dispatcher.py:191 | the handler's end, by return or exception, is the one the sequential dispatcher gives at that point |
| `DispatchSteps.SameView` | backend/app/platform/events/dispatcher.py:191 | rows the handler has not locked may change without any trace in what it has seen |
| `DispatchSteps.CommitSound` | backend/app/platform/events/dispatcher.py:192-213 | a commit is the sequential dispatch at that point and disturbs no open transaction |
| `DispatchSteps.WriteSound` | backend/app/modules/submission/application/service.py:184-232 | a transaction of other code that commits in between disturbs no open dispatch |
| `DispatchCallers.Linearizable` | backend/app/platform/events/dispatcher.py:138-221 | any interleaving of dispatches and other writes, with crashes, has the tables and replies of deciding them one at a time, for handlers that choose locks as they go, read without locks and draw ids |
| `DispatchCallers.ConcurrentCommitGoesBack` | backend/app/platform/events/dispatcher.py:138-213 | under any interleaving a committed reply goes back to a handler's return value, all of which is carried out at its place in the order |
| `DispatchCallers.OrderRespectsTime` | backend/app/platform/events/dispatcher.py:138-221 | a command answered before another began comes first in that sequence |
| `DispatchCallers.NoTwoCommits` | backend/app/platform/persistence/models.py:54-65 | no two concurrent transactions both commit for one key or one command id |
| `DispatchCallers.ConcurrentSuccessesAgree` | backend/app/platform/events/dispatcher.py:174-189 | concurrent successful callers of a key hold the same result, at most one of them fresh |
| `DispatchCallers.CommittedTablesConsistent` | backend/app/platform/events/dispatcher.py:157-213 | in every reachable state the committed tables are consistent, whoever else writes: receipts done, the dispatcher's events listed, one message each |
| `DispatchCallers.NobodySeesInProgress` | backend/app/platform/events/dispatcher.py:251-253 | under any interleaving no caller gets CommandInProgressError |
| `DispatchAlone.DispatchedAlone` | backend/app/platform/events/dispatcher.py:138-213 | from every state with no open transaction the protocol's steps take a command to the reply and tables of one dispatch on its own |
| `RetryPolicy.ExactDecision` | backend/app/platform/events/retry_policy.py:19-41 | the decision exactly: 30*2^k seconds after attempt k+1 up to the seventh, 3600 from then on, FAILED at the limit; limits outside 1..100 are refused |
| `RetryPolicy.DelayBounds` | backend/app/platform/events/retry_policy.py:36 | delays lie in [30, 3600] and never decrease with the attempt |
| `RetryPolicy.FailureSchedule` | backend/app/platform/events/retry_policy.py:29-41 | the k-th of repeated failures is RETRY with its exact delay below the limit, then FAILED |
| `RetryPolicy.RemainingClosedForm` | backend/app/platform/events/retry_policy.py:36 | the delays left sum to a closed form |
| `RetryPolicy.PoisonMessageSchedule` | backend/app/platform/events/retry_policy.py:19-41 | m-1 RETRY decisions, then FAILED, with a total delay of exactly 30*(2^min(m-1,7) - 1) + 3600*max(0, m-8) seconds |
| `PayloadContracts.WebhookContract` | backend/app/workers/submission_export_webhook.py:172-183 | the payloads the webhook worker takes, entry by entry, whoever stored them |
| `PayloadContracts.MailContract` | backend/app/workers/submission_export_smtp.py:158-171 | likewise for the mail worker, with no other key |
| `PayloadContracts.BusContract` | backend/app/workers/opportunity_event_bus.py:149-180 | likewise for each topic of the bus worker |
| `PayloadContracts.CockpitContract` | backend/app/workers/cockpit_projection.py:208-249 | likewise for the cockpit worker, the tenant's own data included |
| `PayloadContracts.RetentionContract` | backend/app/workers/dce_retention.py:154-162 | a retention message names an object iff its data hold the ids of an object and a tenant |
| `WorkerOutcomes.ActsExactly` | backend/app/workers/cockpit_projection.py:132-143 | each kind of worker acts outside for exactly the messages of its topic with a good payload, if it is equipped |
| `WorkerOutcomes.FailureBacksOff` | backend/app/workers/submission_export_webhook.py:118-163 | for each kind and failing answer the whole row: one attempt more, that failure's code, and min(30*2^k, 3600) seconds to wait, or FAILED at the limit |
| `WorkerOutcomes.SuccessPublishes` | backend/app/workers/submission_export_smtp.py:97-124 | any other answer publishes the row at that time and clears the error; only a returned effect counts as accepted |
| `WorkerOutcomes.RefusedPayload` | backend/app/workers/opportunity_event_bus.py:97-106 | a payload against the contract fails a cockpit message at once and retries all others, with the worker's code |
| `WorkerOutcomes.UnconfiguredMarks` | backend/app/workers/submission_export_webhook.py:137-149 | without a target an open message is marked NOT_CONFIGURED with the worker's code, and no attempt is counted |
| `WorkerOutcomes.UnequippedWaits` | backend/app/workers/submission_export_webhook.py:107-111 | a bus worker without a bus leaves the message, a webhook worker without its secret retries it |
| `WorkerOutcomes.LeftAlone` | backend/app/workers/submission_export_smtp.py:126-139 | published messages, those of other topics, and closed ones an export worker would mark, stay as they are |
| `WorkerOutcomes.ClaimTakesTheOldest` | backend/app/workers/cockpit_projection.py:108-130 | a claim takes the oldest due messages nobody holds locked, oldest first, and leaves one only if the batch is full |
| `ClaimRounds.SortedIdsSound` | backend/app/workers/cockpit_projection.py:122 | the claim order lists each due row once, by (created_at, id) |
| `ClaimRounds.ClaimIdsSound` | backend/app/workers/cockpit_projection.py:110-126 | a claim takes distinct, due, unlocked rows, at most a batch |
| `ClaimRounds.ClaimLeavesTheRest` | backend/app/workers/cockpit_projection.py:127-130 | after a claim under a positive lease, exactly the due rows it did not take are due |
| `ClaimRounds.BatchesDisjoint` | backend/app/workers/cockpit_projection.py:108-130 | repeated claims at one instant take disjoint batches |
| `ClaimRounds.RoundsArePrefix` | backend/app/workers/cockpit_projection.py:108-130 | the batches one after another are the beginning of the sorted list of due rows |
| `ClaimRounds.DueRowsCovered` | backend/app/workers/cockpit_projection.py:108-130 | n rounds claim every due row iff n is at least ceil(due / batch size) |
| `ClaimRounds.ClaimsDisjointExactly` | backend/app/workers/dce_retention.py:125-147 | two claims at one instant are disjoint for every non-empty batch iff the lease is positive |
| `OutboxStore.Store.ClaimDueMessages` | backend/app/workers/cockpit_projection.py:108-130 | the loop leases exactly the claimed rows and returns them in claim order |
| `OutboxStore.Store.Publish` | backend/app/workers/dce_retention.py:187-202 | publishes unless missing or PUBLISHED, with the right counter, and touches no other row |
| `OutboxStore.Store.NotConfigured` | backend/app/workers/submission_export_webhook.py:137-149 | the cockpit guard and the stricter guard of the export workers |
| `OutboxStore.Store.Fail` | backend/app/workers/cockpit_projection.py:173-183 | counts the attempt and fails the row unless missing or PUBLISHED |
| `OutboxStore.Store.Retry` | backend/app/workers/cockpit_projection.py:185-205 | in-place execution gives the row of `Settle`, which `WorkerOutcomes.FailureBacksOff` gives in closed form |
| `OutboxStore.Store.ProcessMessage` | backend/app/workers/cockpit_projection.py:132-148 | in-place execution gives `Process`, whose rows `WorkerOutcomes` states for each kind of worker |
| `OutboxStore.Store.RunOnce` | backend/app/workers/cockpit_projection.py:100-106 | every claimed row is processed once, no other row changes, and the counters sum to the rows claimed |
| `OutboxStore.TallyTotal` | backend/app/workers/cockpit_projection.py:261-270 | merging counts every report once |
| `OutboxStore.TallyExactly` | backend/app/workers/cockpit_projection.py:261-270 | each counter is the number of messages that ended that way |
| `LeaseInvariants.SettleRow` | backend/app/workers/submission_export_smtp.py:112-157 | a settlement adds at most one attempt, never touches a PUBLISHED row, and leaves open rows below the limit |
| `LeaseInvariants.RunSound` | backend/app/workers/cockpit_projection.py:100-205 | the state invariant of all runs: queues without duplicates, rows of the right topic, counters in step |
| `LeaseInvariants.CountersAddUp` | backend/app/workers/cockpit_projection.py:100-106 | interleaved with anything, a finished run's counters sum to the rows it claimed |
| `LeaseInvariants.RowsOnlyGetLater` | backend/app/workers/cockpit_projection.py:127-205 | over any run attempts never drop, messages keep their contents, and PUBLISHED rows never change |
| `LeaseInvariants.PublishedAtMostOnce` | backend/app/workers/cockpit_projection.py:150-160 | a row becomes PUBLISHED at most once over all runs and workers |
| `LeaseInvariants.RowsShaped` | backend/app/workers/cockpit_projection.py:127-205 | in every run published_at is set iff PUBLISHED, a RETRY row has next_attempt_at, only open rows have it, and a closed row carries an error code iff it was not published |
| `LeaseMarks.PendingUntilClaimed` | backend/app/workers/cockpit_projection.py:108-130 | in every run a message is PENDING, and as it was stored, exactly until its first claim |
| `LeaseMarks.RetryMarkExactly` | backend/app/modules/submission/application/service.py:201-230 | next_attempt_at is set iff RETRY exactly when the message was stored without it or has been claimed since; the export stores it |
| `LeaseMarks.ExportsAreMarked` | backend/app/modules/submission/application/service.py:201-230 | right after an export both its messages are PENDING with next_attempt_at set |
| `LeaseInvariants.AttemptsBounded` | backend/app/platform/events/retry_policy.py:27-41 | with W workers of a topic, attempts never exceed limit - 1 + W, and open rows stay below the limit |
| `LeaseTightness.AttemptsBoundIsReached` | backend/app/workers/submission_export_webhook.py:98-169 | for every limit, every number of webhook workers and every export, a run of failing posts reaches that bound |
| `LeaseTightness.ExportsQualify` | backend/app/modules/submission/application/service.py:201-215 | every message the export stores is one with which the bound is reached |
| `LeaseDelivery.DeliveriesAccounted` | backend/app/workers/opportunity_event_bus.py:97-131 | in every run and for every message: accepted deliveries = published + lost to crashes + awaiting commit + duplicates, less the retention messages published without a deletion; other messages are PUBLISHED only after a delivery |
| `LeaseDelivery.FirstDeliveryExactly` | backend/app/workers/cockpit_projection.py:132-160 | an accepted delivery is its message's first iff the message is not published, no worker crashed between acceptance and commit, and none stands there; for retention too, publications without a deletion aside |
| `LeaseDelivery.OnceExactly` | backend/app/workers/cockpit_projection.py:69-75 | a published message was delivered exactly once iff no worker crashed or stands between acceptance and commit, or committed a further delivery |
| `LeaseDelivery.DeliveredAreStored` | backend/app/workers/opportunity_event_bus.py:97-118 | only stored messages are ever delivered |
| `LeaseDelivery.PunctualHolderIsAlone` | backend/app/workers/submission_export_webhook.py:74-96 | if workers act only within their leases, at most one holds a row, which is RETRY with exactly its lease |
| `LeaseDelivery.PunctualDeliveries` | backend/app/workers/cockpit_projection.py:132-160 | under that discipline no delivery is committed twice: deliveries = published + crashes + awaiting, less publications without a deletion |
| `LeaseDelivery.PunctualRepeatExactly` | backend/app/workers/cockpit_projection.py:132-160 | under that discipline a delivery repeats an earlier one iff some worker crashed, or stalled past its lease, between acceptance and commit |
| `LeaseDelivery.PunctualOnceExactly` | backend/app/workers/cockpit_projection.py:69-75 | under that discipline a published message was delivered exactly once iff no worker crashed or stalled so |
| `LeaseDelivery.PunctualAttempts` | backend/app/workers/cockpit_projection.py:185-205 | under that discipline attempts never exceed the limit, however many the workers |
| `LeaseDelivery.PunctualClosedIsFinal` | backend/app/workers/cockpit_projection.py:150-205 | under that discipline a message that is PUBLISHED, FAILED or NOT_CONFIGURED never changes again |
| `LeaseDelivery.ClosedOverwrittenExactly` | backend/app/workers/cockpit_projection.py:150-205 | in any run a step changes a closed message iff it settles it, the row is not PUBLISHED, and the verdict passes that worker's guard |
| `LeaseDelivery.ClosedChangesExactly` | backend/app/workers/submission_export_webhook.py:98-169 | after a run of punctual workers that step is moreover one after the worker's lease |
| `LeaseBackoff.FailureSettles` | backend/app/workers/cockpit_projection.py:143-205 | in any run, whatever others do in between, a worker whose effect failed settles the row as above, counted from the start of its own run, unless it was published meanwhile |
| `LeaseBackoff.ClaimsWait` | backend/app/workers/cockpit_projection.py:108-130 | in any run a claim takes only open messages whose next_attempt_at has passed, and leases them for leaseSeconds |
| `LeaseBackoff.PunctualBackoff` | backend/app/workers/cockpit_projection.py:185-205 | with punctual workers a failed message stays exactly as its failure left it until its time has come |
| `LeaseAlone.RunOnceAlone` | backend/app/workers/cockpit_projection.py:100-148 | from every reachable state an idle worker can run alone, with the rows and counters of `RunOnce` |
| `LeaseLateWorkers.FailedIsPublished` | backend/app/workers/submission_export_webhook.py:98-169 | for any two webhook workers and any export: a run in which the message is FAILED, and then PUBLISHED by the late one |
| `LeaseLateWorkers.NotConfiguredIsPublished` | backend/app/workers/submission_export_webhook.py:98-149 | likewise a run in which a NOT_CONFIGURED message is PUBLISHED |
| `LeaseRepeats.DeliveredTwiceByCrash` | backend/app/workers/submission_export_webhook.py:98-169 | for any webhook worker and any export: a run within its leases in which it delivers the message twice, with one crash |
| `LeaseRepeats.DeliveredTwiceByStall` | backend/app/workers/submission_export_webhook.py:98-169 | a run of two workers without a crash that deliver an export twice, punctual until the first one commits late |
| `LeaseRepeats.PublishedWithoutDeletion` | backend/app/workers/dce_retention.py:149-202 | a run in which a retention message is published for a missing or kept object, with no deletion |
| `StagedObjects.WritesAreLater` | backend/alembic/versions/20260813_0010_dce_staging.py:136-153 | writes the triggers admit never lose an object, change its identity or revive a closed one |
| `StagedObjects.TransitionsExactly` | backend/alembic/versions/20260813_0011_dce_upload.py:28-47 | the transitions are one step towards the consumption, a rejection before CLEAN, or an expiry of what is neither consumed nor expired |
| `StagedObjects.DeletableExactly` | backend/alembic/versions/20260813_0011_dce_upload.py:28-47 | the deletable states are exactly those from which CONSUMED is unreachable |
| `StagingExpiry.ExpiryAllowed` | backend/alembic/versions/20260813_0010_dce_staging.py:75-110 | no trigger or constraint refuses an expiry the handler lets through |
| `StagingExpiry.ObjectsOnlyGetLater` | backend/alembic/versions/20260813_0011_dce_upload.py:28-47 | whatever handlers run and whoever else writes, staged objects move only along the transitions |
| `ExpiryMessages.ObjectsStayDocumented` | backend/alembic/versions/20260813_0010_dce_staging.py:75-110 | over any sequence a consumed object tells by whom and when and no other does, and a clean one has all of its scan |
| `StagingExpiry.ExpirySucceedsExactly` | backend/app/modules/dce/application/handlers.py:398-447 | a new expiry command commits iff the system sent it for its tenant and the object is open and due at that point; no trigger or constraint ever refuses it |
| `ExpiryMessages.ExpiryAnnounced` | backend/app/modules/dce/application/handlers.py:425-447 | a committed expiry changes exactly its object and stores exactly one event and one message: on the retention topic, naming that object and tenant |
| `StagingExpiry.ExpiredAtMostOnce` | backend/app/workers/dce_retention.py:109-122 | at most one expiry of an object is ever committed |
| `StagingExpiry.ConsumedNeverExpired` | backend/app/modules/dce/application/handlers.py:418-419 | a consumed object has never been and will never be expired |
| `StagingExpiry.LateSweepLeavesNothing` | backend/app/workers/dce_retention.py:109-122 | a sweep that loses to a consumer fails and leaves no receipt, event, message or change |
| `StagingExpiry.ConcurrentExpiry` | backend/app/workers/dce_retention.py:86-123 | of any number of concurrent expiries one at most expires the object |
| `StagingExpiry.ConsumerWins` | backend/app/workers/dce_retention.py:86-123 | if a consumer took the object, every expiry of it has failed, however they interleaved, and left no receipt, event, message or change |
| `StagingExpiry.SuccessMeansExpired` | backend/app/workers/dce_retention.py:109-123 | a counted success means that the object is EXPIRED from then on |
| `StagingSweep.SweepAgain` | backend/app/workers/dce_retention.py:111-119 | a later sweep of an object is the same command again: it gets the first reply as a replay and changes nothing |
| `StagingSweep.ConcurrentSweeps` | backend/app/workers/dce_retention.py:109-122 | of the commands that concurrent sweeps send for an object, one at most commits |
| `StagingSweep.CountedMeansExpired` | backend/app/workers/dce_retention.py:109-123 | after any history, a sweep's success means that the object is EXPIRED at its end |
| `StagingSweep.ExpireDueObjects` | backend/app/workers/dce_retention.py:86-123 | the loop dispatches one command per object of the selection query and counts those that did not fail; every one counted leaves its object EXPIRED |
| `StagingSweep.SweepExpiresSelection` | backend/app/workers/dce_retention.py:86-123 | a sweep that nothing gets in the way of expires all it selected, counts them all, and changes no other object |
| `SweepFresh.FirstSweepExpiresAll` | backend/app/workers/dce_retention.py:86-123 | a sweep over objects for which no command was sent before expires them all, whatever else the tables hold: its derived ids never collide |
| `DurableSystem.RunProjects` | backend/app/platform/events/dispatcher.py:290-303 | every run of the system is a run of dispatcher and other writers and a run of the workers, over the same messages |
| `DurableDelivery.DeliveredMeansCommitted` | backend/app/platform/events/dispatcher.py:274-303 | only stored messages are delivered; on the cockpit and retention topics each goes back to an event listed in a SUCCEEDED receipt, and, if handlers announce only there, no message on another topic does |
| `DurableDelivery.CommittedMeansStored` | backend/app/platform/events/dispatcher.py:290-303 | every event the dispatcher has committed is stored for delivery exactly once, whatever workers and other writers do |
| `DurableDelivery.CommandsRunHere` | backend/app/platform/events/dispatcher.py:138-213 | every run of dispatcher and other writers is a run of the whole system |
| `DurableDelivery.ExportWithoutReceipt` | backend/app/modules/submission/application/service.py:184-215 | an export's message is stored, and accepted by its worker, and no receipt stands behind it |
| `DurableRetention.LiveObjectsKeepTheirBytes` | backend/app/workers/dce_retention.py:149-185 | no object outside REJECTED and EXPIRED ever finds its bytes deleted or about to be deleted |
| `DurableDeletion.LookExactly` | backend/app/workers/dce_retention.py:163-185 | a look leads to a deletion, of that object's key, iff the object named exists in the message's tenant and is REJECTED or EXPIRED; otherwise to a publication, skipped iff the object may still be used |
| `DurableDeletion.DeletableIsDeleted` | backend/app/workers/dce_retention.py:149-202 | from every reachable state with such a look ahead a run deletes that object's bytes and publishes the message as delivered |
| `DurablePublications.NoDeletionMeansNothingToDelete` | backend/app/workers/dce_retention.py:163-178 | over any run a message published without a deletion had a look at which its object was missing, foreign, or neither REJECTED nor EXPIRED |
| `DurablePublications.PublishedRetentionExplained` | backend/app/workers/dce_retention.py:149-202 | every PUBLISHED retention message: its object is REJECTED or EXPIRED and the bytes are gone, or there was such a look |
| `RootRepository.Table.ExecuteUpdate` | backend/app/platform/persistence/repository.py:50-63 | in-place execution gives the guarded UPDATE, of which `SuccessWrites` says what it writes |
| `RootRepository.Table.UpdateRootWithExpectedRevision` | backend/app/platform/persistence/repository.py:22-66 | in-place execution equals the specification, errors in the order of the checks |
| `RootRepository.OnlyTheTargetChanges` | backend/app/platform/persistence/repository.py:45-62 | other roots, other tenants and columns off the whitelist never change |
| `RootRepository.SuccessWrites` | backend/app/platform/persistence/repository.py:45-66 | an update succeeds iff it is well sent and the root is the tenant's at that revision; then each changed column holds the value sent, every other its old one, and the time is now |
| `RootRepository.RefusalExactly` | backend/app/platform/persistence/repository.py:39-48 | which error an update gets, in the order of the checks, with the names of the forbidden columns; nothing changes |
| `RootRepository.ColumnsHoldTheLast` | backend/app/platform/persistence/repository.py:50-66 | after any history each column holds what the last success naming it sent, else its first value |
| `RootRepository.RevisionCountsSuccesses` | backend/app/platform/persistence/repository.py:57-66 | the revision grows by exactly the number of successes, and an equal revision means an equal row |
| `RootRepository.OneSuccessPerRevision` | backend/app/platform/persistence/repository.py:52-65 | at most one success per expected revision |
| `RootRepository.SuccessesFormAChain` | backend/app/platform/persistence/repository.py:63-66 | each success expects what the one before returned |
| `RootRepository.NoLostUpdate` | backend/app/platform/persistence/repository.py:50-66 | a valid update succeeds iff nobody has succeeded since its read, and then it overwrites the very row that was read |
| `AuthSession.SessionRow.Resolve` | backend/app/platform/security/authenticated_context.py:63-135 | in-place execution equals the specification and keeps the constraints |
| `AuthSession.AlwaysBounded` | backend/alembic/versions/20260813_0007_auth_session_absolute_expiry.py:29-38 | expires_at never passes absolute_expires_at, and a closed session never changes |
| `AuthSession.TimedOutForever` | backend/app/platform/security/authenticated_context.py:93-96 | a session that timed out is never accepted again, even by a clock that goes back |
| `AuthSession.AcceptanceNeeds` | backend/app/platform/security/authenticated_context.py:66-95 | after any calls in any order: accepted iff token version, membership, identity, role and session are good and the call is within the window |
| `AuthSession.WindowMovesExactly` | backend/app/platform/security/authenticated_context.py:86-102 | the window moves iff the call's token, membership and identity are good and it comes in time, to eight hours after it; every other call leaves it |
| `AuthSession.AcceptedExactly` | backend/app/platform/security/authenticated_context.py:86-102 | with times in order and any other calls in between: accepted iff good, after the issue and before the absolute expiry, and among the calls with good token, membership and identity the first came before the initial expiry and no gap reached eight hours |
| `Provenance.TriggerGivesChain` | backend/alembic/versions/20260814_0014_dce_rc_analysis.py:280-312 | the joins of the source trigger, with the fragment trigger before it, give the whole chain |
| `Provenance.TriggerExactly` | backend/alembic/versions/20260814_0014_dce_rc_analysis.py:280-312 | the source trigger lets a source in iff its whole chain is there, version link included |
| `Provenance.FragmentStoredExactly` | backend/alembic/versions/20260826_0067_controlled_dce_ocr.py:26-44 | a fragment is stored iff its extraction was, is COMPLETED or REVIEW_REQUIRED and of its tenant, and it has a text and a positive number |
| `Provenance.ObservationStoredExactly` | backend/alembic/versions/20260814_0014_dce_rc_analysis.py:250-275 | an observation is stored iff its analysis was, is COMPLETED, and of its tenant and version |
| `Provenance.SourcesStayChained` | backend/alembic/versions/20260814_0014_dce_rc_analysis.py:231-320 | over every run each source keeps its observation, span, COMPLETED analysis, and a fragment of a COMPLETED or REVIEW_REQUIRED extraction |
| `Provenance.NothingIsRewritten` | backend/alembic/versions/20260813_0013_dce_document_extraction.py:170-193 | rows of the append-only tables are never changed or removed |
| `Provenance.AlwaysWellKept` | backend/alembic/versions/20260813_0002_consultation_dce.py:236-262 | over every run exactly the failures carry a code, documents have existing versions, none holds a hash twice, and no statement changes a hash |
| `Provenance.FragmentStays` | backend/alembic/versions/20260826_0067_controlled_dce_ocr.py:26-44 | what the fragment trigger checked stays true |
| `Provenance.VersionLinkLostExactly` | backend/alembic/versions/20260813_0002_consultation_dce.py:420-443 | the version link of sources is lost exactly by a statement that moves a cited document to another version |
| `Provenance.VersionCanBeMovedExactly` | backend/alembic/versions/20260813_0002_consultation_dce.py:236-262 | a stored source loses its link by a move to a given version iff that version exists and does not hold the document's hash yet |
| `Provenance.VersionLinkKept` | backend/alembic/versions/20260813_0002_consultation_dce.py:420-443 | over every run in which no statement moves a cited document, every source is of its version |
| `Provenance.VersionLinkIsLost` | backend/alembic/versions/20260813_0002_consultation_dce.py:236-262 | a run that stores a source with its whole chain and then breaks its version link |

## Left out

- Uuids.Parse: does not model the tolerance of Python's `int(text, 16)` for underscores, signs, blanks and a 0x prefix among the 32 digits, because no UUID the system writes contains them.
- Dispatcher.FromReceipt: does not model `str()` of values that are not strings, because only the dispatcher writes response bodies.
- CommandRequests.RequestTextFaithful: takes SHA-256 as injective; floats and lone surrogates in payloads are not modelled, and equality of values tells `true` from `1` as their JSON texts do.
- Dispatcher.Execute: a handler writes only rows it has locked or is about to insert; what it read without a lock is repeated to it as it was, so the order shown is serial for the rows it locked.
- Dispatcher.OtherWriteAllowed: other code writes messages only for events of its own transaction, and never on the two topics of the dispatcher; all such code in the repository does so. Its other tables are left abstract.
- DispatchProtocol.Taken: an IntegrityError of the savepoint from a foreign key or the primary key of the receipt, rather than from one of its two unique constraints, is not modelled; the code would answer it like an unresolved collision.
- DispatchSteps.InsertSound: takes the waits for the two unique indexes as one step; the order in which PostgreSQL checks them, and deadlocks it breaks by aborting, appear as aborts.
- SweepFresh.DerivesApart: takes `uuid5` as injective in the object for a fixed name.
- StagedObjects.WritesAllowed: a transaction updates a staged row at most once.
- LeaseProtocol: one clock stands for the clocks of all workers; a worker captures it once per run.
- LeaseDelivery.ClosedOverwrittenExactly: marking a NOT_CONFIGURED row again with the same code writes the same values and is no change.
- StagingSweep.ExpireDueObjects: the first transaction's query is a predicate on its result; the `expired` counter of the run is the method's result.
- RootRepository.Table.UpdateRootWithExpectedRevision: a whitelist that names `id` or `tenant_id` is excluded, because no repository has one.
- Provenance.Permitted: does not model the remaining unique constraints and foreign keys (tenants, staged objects, tables outside the chain); they refuse inserts, deletions and changes of tenant, never a change of a document's version.
- The uploader's own deletions after a failed upload (backend/app/modules/dce/application/upload.py:154-196).
- Deletion of staged rows and TRUNCATE, which no code issues.
- A retention message whose payload is not an object makes the worker raise; it then behaves like a crash.
- Rows a bus worker without a bus has claimed stay leased; the model counts them as skipped, as the code does.
- Domain handlers other than expiry, authorization policy, assignment scopes, token decoding, SMTP, HTTPS, HMAC, logging, metrics, migration downgrades and the front end.
