# Verified models of the swap transport and the client swap drivers

This project models the parts of the repository whose correctness rests on what survives a crash, a
failed write or a late answer, and proves what they promise over every run:

- **The durable outbox** (`OutboxJournal`, `OutboxLaws`, `Outbox`, `OutboxProtocol`): reserving,
  publishing, retrying, pausing, completing, reopening and deleting encrypted resources, as an object
  over one journal file and as a system of concurrent publications and deletions against a homeserver.
- **The leased inbox** (`ReceiveJournal`, `InboxProtocol`, `Inboxes`): at-least-once delivery with
  explicit acknowledgment, bounded pending work and volatile leases.
- **The poll scheduler** (`PollSchedule`, `PollLaws`, `PeerInbox`): bounded concurrency, the quota for
  stretched polls, and the alternation between woken and overdue peers.
- **The client swap drivers** (`Chain`, `FundingSelection`, `SwapRecord`, `SwapRun`, `SpendDriver`,
  `SubmarineDriver`, `ReverseDriver`): one persisted record, a chain and a node that answer as they
  like, and any number of runs of the process.
- **Negotiation** (`Messages`, `Negotiator`, `DmChannel`): which failures are definite, which replies
  are believed, and how an acceptance travels from the inbox to the swap record.

## How it is modelled

Operations that change state are methods of classes, proved equal to specification functions or to
clauses about the new state; the theorems over whole runs are lemmas about those functions, or the
contracts of methods that run a driver many times.

- *Writes.* Every journal write is `Saved`, `FailedOld` or `FailedNew` (module `Durability`): the file
  is replaced by a rename that is followed by a directory sync, so a write that reports failure leaves
  either contents behind.
- *Concurrency.* Publications and deletions of the outbox, and reads, handlers and registrations of the
  inbox, are steps of a state machine; a run is any sequence of steps. A remote call takes effect
  before it returns or is abandoned, or not at all.
- *Crashes in the drivers.* The outside world is a family of functions of a clock (`SwapRun.World`), so
  it may answer anything at any time; the process stops at the instant `crashAt`, which may lie between
  any two calls. A theorem for every `crashAt` is a theorem about every moment of a run, and it is also
  what bounds the polling loops.
- *Messages carried.* Every attempt to reach the provider is added to a ghost history together with what
  came of it, and what the negotiation concludes is stated about that history.
- *Hashes* are injective: a payment hash is identified with the bytes hashed. A transaction is its id
  and the witnesses of its inputs, and its id names it.

Two findings came out of the proofs. `note_our_spend` keeps the latest sixteen transactions by when they
were new, so broadcasting the oldest again does not refresh it: one further transaction makes the record
forget it. `SwapRecord.SpendsAreKnownExactly` says for any further notes which spends are recognised,
`SwapRecord.OnlyNewSpendsTakeRoom` how many new ones leave room for a given place, and
`SwapRecord.ResendingTheOldestDoesNotKeepIt` gives the failing case. And the scheduler's comment on a peer
evicted while it is polled (`pubky-transport/src/poll.rs:436`) describes a branch that cannot be taken: the
entry is kept while the poll runs (`PollLaws.RefreshKeepsAccounted`), and the model follows the code.

## Model

| member | source | states |
|---|---|---|
| DurableOutbox.FindEntry | pubky-transport/src/outbox.rs:652-658 | the scan finds the first entry with the id, and none exactly when no entry has it |
| OutboxLaws.OperationPointwise | pubky-transport/src/outbox.rs:345-455 | every operation except a new reservation and a removal keeps each resource's identity and bytes and adds no claim that a resource is published, except the one it was told is confirmed |
| OutboxLaws.OperationKeepsValid | pubky-transport/src/outbox.rs:688-729 | everything checked when a journal is opened (unique ids and reservations, owner and recipient, pauses only on permanent failures) is kept by every operation |
| OutboxLaws.UnchangedMeansEqual | pubky-transport/src/outbox.rs:620-641 | a candidate reported as unchanged equals the journal, so skipping the write loses nothing |
| OutboxLaws.ReservedBytesAreReturned | pubky-transport/src/outbox.rs:259-302 | preparing a saved reservation again returns exactly the saved resource, whatever a new preparation would have made |
| OutboxLaws.ReopenedEntrySurvivesLateDeletion | pubky-transport/src/outbox.rs:438-508 | after reopening, a deletion in flight can neither remove the entry nor record a failure, and the entry is due for publication unless paused |
| OutboxLaws.FirstDeadlineStands | pubky-transport/src/outbox.rs:422-436 | completing a scope again keeps the first cleanup deadline |
| OutboxLaws.DelayDoublesToItsCeiling | pubky-transport/src/outbox.rs:664-671 | the retry delay doubles from one second, never shrinks, and reaches its ceiling at exactly the tenth attempt |
| OutboxLaws.RetryableReasons | pubky-transport/src/outbox.rs:41-75 | exactly timeouts, unreachable stores and the temporary statuses are retried on their own |
| OutboxLaws.VariablePartIsSmall | pubky-transport/src/outbox.rs:332-339 | all that updates can change about one entry serializes to between 9 and 223 bytes, below the reserved 512 |
| OutboxLaws.AdmissionReserves | pubky-transport/src/outbox.rs:332-339 | what preparation admits is within its byte reservation |
| OutboxLaws.OperationKeepsReservation | pubky-transport/src/outbox.rs:787-791 | no operation leaves the reservation |
| OutboxLaws.ReservationFits | pubky-transport/src/outbox.rs:787-791 | a journal within its reservation fits the file limit |
| OutboxProtocol.StepKeepsInv | pubky-transport/src/lib.rs:465-572 | every step of publication, deletion, completion, reopening, failed write, crash and restart keeps the protocol invariant |
| OutboxProtocol.NothingIsForgotten | pubky-transport/src/lib.rs:480-572 | in every run, a resource on the homeserver has an entry on disk with exactly its bytes |
| OutboxProtocol.PublishedMeansPresent | pubky-transport/src/outbox.rs:438-455 | an entry marked published with no cleanup deadline is on the homeserver, even when reopening raced a deletion |
| OutboxProtocol.MissingMeansScheduled | pubky-transport/src/outbox.rs:407-420 | an entry missing from the homeserver and not awaiting cleanup is due for republication exactly when it is not paused |
| OutboxProtocol.LateDeletionChangesNothing | pubky-transport/src/lib.rs:480-509 | a deletion that returns after its scope was reopened leaves the journal as it is, whether it succeeded or failed |
| OutboxProtocol.CriticalSectionsExclude | pubky-transport/src/lib.rs:522-534 | two tasks inside the per-resource lock work on different resources |
| OutboxProtocol.HealthyAndReopenable | pubky-transport/src/outbox.rs:620-641 | while no write has failed memory equals the saved journal, and the saved journal always opens again |
| OutboxProtocol.SavesAlwaysFit | pubky-transport/src/outbox.rs:787-791 | in a run from an empty journal no operation ever produces a file over the byte limit |
| OutboxProtocol.RemovedStaysRemoved | pubky-transport/src/outbox.rs:573-589 | once an issued resource has no entry on disk it is off the homeserver and stays off, with no entry again |
| OutboxProtocol.RemovedIsNeverRepublished | pubky-transport/src/lib.rs:536-572 | a removed resource is never put on the homeserver again, in any run |
| OutboxProtocol.BytesAreFixed | pubky-transport/src/outbox.rs:259-302 | two looks at one resource, however far apart in a run, see the same bytes under the same recipient, scope and content |
| OutboxProtocol.RepeatedPrepareReturnsTheFirstBytes | pubky-transport/src/outbox.rs:259-302 | in every run, preparing again for a recipient, scope and content returns the bytes first saved for them as long as they are in the journal, whatever was reserved, published, failed, completed, reopened or removed in between |
| DurableOutbox.Outbox.Persist | pubky-transport/src/outbox.rs:620-641 | the file changes before memory; a failed write poisons the object and leaves the old or the new file |
| DurableOutbox.Outbox.PrepareWithExpiry | pubky-transport/src/outbox.rs:259-343 | the whole of preparation: reuse, capacity, completed scopes, owner and recipient checks, byte limit, and its single write |
| DurableOutbox.Outbox.MarkPublished | pubky-transport/src/outbox.rs:345-355 | equals its specification on memory, disk and the poison flag |
| DurableOutbox.Outbox.CanPublish | pubky-transport/src/outbox.rs:357-386 | whether a publication may start, re-read under the lock |
| DurableOutbox.Outbox.MarkFailed | pubky-transport/src/outbox.rs:388-405 | equals its specification: backoff, pause on permanent failures, nothing for a completed entry |
| DurableOutbox.Outbox.CompleteScope | pubky-transport/src/outbox.rs:422-436 | the loop over the scope's entries equals the specification |
| DurableOutbox.Outbox.ReopenScope | pubky-transport/src/outbox.rs:438-455 | the loop over the scope's entries equals the specification |
| DurableOutbox.Outbox.MarkCleanupFailed | pubky-transport/src/outbox.rs:492-509 | equals its specification: a failure of a revoked cleanup changes nothing |
| DurableOutbox.Outbox.Retry | pubky-transport/src/outbox.rs:545-571 | equals its specification for both operations |
| DurableOutbox.Outbox.RemoveDeleted | pubky-transport/src/outbox.rs:573-589 | removes exactly the given entries, and refuses when one of them is not due for cleanup |
| DurableOutbox.SelectBatch | pubky-transport/src/outbox.rs:591-618 | the batch is ordered by due time, bounded, holds only due entries, and leaves out only entries due no earlier than any it takes |
| DurableOutbox.EverythingDueFits | pubky-transport/src/outbox.rs:591-618 | a batch below its bound holds every due entry |
| PollLaws.PassKeepsAccounted | pubky-transport/src/poll.rs:307-372 | a launch pass keeps the accounts exact: running polls are distinct, are the entries in flight, and stay within the slots and the stretched quota |
| PollLaws.RefreshKeepsAccounted | pubky-transport/src/poll.rs:295-305 | relisting keeps the accounts; the entry of a peer delisted mid-poll is kept |
| PollLaws.CompletionKeepsAccounted | pubky-transport/src/poll.rs:375-446 | a completion frees exactly the slot of the poll that completed |
| PollLaws.OneSlotIsNeverStretched | pubky-transport/src/poll.rs:284-293 | with at least two slots one is always free of stretched polls |
| PollLaws.OnePassLeavesDuePeersOnlyAtQuota | pubky-transport/src/poll.rs:307-372 | a pass leaves a free slot beside a due unstretched peer only if that pass used up the stretched quota |
| PollLaws.TwoPassesConserveWork | pubky-transport/src/poll.rs:251-277 | a second pass at the same instant leaves no due unstretched peer beside a free slot |
| PollLaws.LaunchesAlternate | pubky-transport/src/poll.rs:332-354 | while both queues hold candidates launches alternate strictly within a pass |
| PollLaws.RunsStayAccounted | pubky-transport/src/poll.rs:222-277 | over any run the accounts stay exact and contested launches alternate across passes |
| PollLaws.OverduePeersAreNotStarved | pubky-transport/src/poll.rs:332-354 | over any run an overdue peer that did not time out waits for at most two launches per overdue peer in front of it plus one, and one filling of the slots for each pass in which stretched peers took its place in the queue |
| PollLaws.BackoffGrowsToItsCap | pubky-transport/src/poll.rs:493-498 | a longer streak never shortens the interval and the cap always holds |
| PeerInbox.Earliest | pubky-transport/src/poll.rs:483-490 | the queue kept is the earliest candidates in due order |
| PeerInbox.Inbox.Launch | pubky-transport/src/poll.rs:307-372 | the loop equals the specification of a pass |
| PeerInbox.Inbox.WakeTime | pubky-transport/src/poll.rs:251-277 | with a slot free the wait never goes past the due time of a peer that can start |
| PeerInbox.Inbox.FollowPeers | pubky-transport/src/poll.rs:295-305 | equals the specification of a refresh, which also clears the request for one and sets the time of the next |
| PeerInbox.Inbox.Complete | pubky-transport/src/poll.rs:375-446 | equals the specification of a completion |
| ReceiveJournal.RememberKeepsOk | pubky-transport/src/journal.rs:197-230 | admission stays within 32 pending bodies a peer and 1024 in all, without repeats |
| ReceiveJournal.AcknowledgeKeepsOk | pubky-transport/src/journal.rs:232-250 | an acknowledged identity is no longer pending, and the bounds stay |
| ReceiveJournal.ChangesGrow | pubky-transport/src/journal.rs:158-250 | no journal change takes back an admitted or an acknowledged identity |
| InboxProtocol.StepKeepsInv | pubky-transport/src/inbox.rs:120-236 | every read, retrieval, handler call, registration, failed write and restart keeps the inbox invariant |
| InboxProtocol.EveryIdentityIsInOnePlace | pubky-transport/src/journal.rs:190-265 | in every run each identity is exactly one of acknowledged, durably pending and discoverable, within the bounds |
| InboxProtocol.NothingIsLost | pubky-transport/src/journal.rs:252-265 | once the file holds an identity no crash, failed write or handler makes it forget it |
| InboxProtocol.AcknowledgedOnlyThroughAReceipt | pubky-transport/src/inbox.rs:192-236 | an authentic decodable message becomes acknowledged only through a handler's receipt |
| InboxProtocol.AcknowledgedIsNeverRedelivered | pubky-transport/src/inbox.rs:146-191 | once acknowledged on disk, a message is never delivered again |
| InboxProtocol.LeasesAreExclusive | pubky-transport/src/inbox.rs:218-232 | an identity has at most one receipt holding its current lease |
| InboxProtocol.StaleReceiptsFreeNothing | pubky-transport/src/lib.rs:799-820 | dropping, releasing or acknowledging a stale receipt frees no lease |
| InboxProtocol.NoReceiptsNoLeases | pubky-transport/src/lib.rs:813-820 | when every receipt is gone no lease is left |
| InboxProtocol.EverythingPendingIsDeliverableAgain | pubky-transport/src/inbox.rs:192-236 | then the next read delivers every pending message that can be delivered |
| InboxProtocol.FailedDeliveryLeavesNoLease | pubky-transport/src/inbox.rs:204-217 | a delivery whose write fails halfway takes back every lease it had made and no other |
| Inboxes.Journal.Update | pubky-transport/src/journal.rs:252-265 | the file changes before memory; a failed write poisons the journal |
| Inboxes.Journal.Register | pubky-transport/src/journal.rs:158-175 | writes only when something changes and never beyond 1024 peers |
| Inboxes.Journal.Unregister | pubky-transport/src/journal.rs:177-188 | a peer with pending work stays registered |
| Inboxes.Journal.Room | pubky-transport/src/journal.rs:190-195 | what is left of both bounds, summed over peers in any order |
| Inboxes.Journal.Remember | pubky-transport/src/journal.rs:197-230 | the loop admits exactly what the specification admits, in one write |
| Inboxes.Journal.Acknowledge | pubky-transport/src/journal.rs:232-250 | the loops equal the specification, in one write |
| Inboxes.SelectedMissesNothing | pubky-transport/src/inbox.rs:159-167 | an own identity is left out of a retrieval only when the room is used up |
| Inboxes.Inboxes.Select | pubky-transport/src/inbox.rs:159-167 | the loop takes the first own identities that fit |
| Inboxes.Inboxes.Acknowledge | pubky-transport/src/lib.rs:799-810 | the journal first, the lease only when that was saved, and only if it is still this receipt's |
| Inboxes.Inboxes.Deliver | pubky-transport/src/inbox.rs:192-236 | the loop leases exactly the deliverable messages nobody holds, and drops what it made when a write fails |
| Inboxes.Inboxes.Enter | pubky-transport/src/inbox.rs:120-139 | a read starts only for the mailbox the journal belongs to, and a scheduled one only for a registered peer; it then holds the slot of that peer |
| Inboxes.Inboxes.Evict | pubky-transport/src/inbox.rs:79-92 | a peer goes exactly when no read of it is under way, nothing of it is pending and the write is saved; its slot goes with it |
| Inboxes.Inboxes.StartRead | pubky-transport/src/inbox.rs:140-157 | durable work first; discovery is handed exactly the identities neither acknowledged nor pending as open |
| Inboxes.Inboxes.FinishRead | pubky-transport/src/inbox.rs:174-189 | what was retrieved is saved before anything of it is delivered |
| Chain.ExtractPreimage | swap-common/src/onchain.rs:351-369 | finds a preimage exactly when an input spending the output shows one |
| FundingSelection.AcceptedExactly | swap-common/src/chain.rs:231-261 | an output is acted on exactly when it is the only one and its value is within the tolerance; the other cases are told apart |
| FundingSelection.SelectRecorded | swap-common/src/chain.rs:192-225 | the in-place sort and the scan equal the specification, for lookups that may answer differently each time |
| FundingSelection.SelectionIgnoresOrder | swap-common/src/chain.rs:206-212 | every permutation of the history, repeats included, gives the same result |
| FundingSelection.SelectedHasTheExactValue | swap-common/src/chain.rs:199-205 | what is selected has exactly the expected value, and nothing is selected exactly when no output ever had it |
| FundingSelection.TheClaimedOutputIsPreferred | swap-common/src/chain.rs:214-224 | among several, the first in depth, txid and index order whose spend reveals the preimage, or simply the first |
| SwapRecord.Store.RecordCreationStarted | swap-client/src/store.rs:106-120 | the attempt and its tip are written once, before anything is sent |
| SwapRecord.Store.RecordCreationReply | swap-client/src/store.rs:124-158 | the stored acceptance is written once; an equal one is a no-op and another is refused |
| SwapRecord.Store.RecordAccept | swap-client/src/store.rs:164-181 | the reply is stored before the contract, and the terms executed are the acceptance's |
| SwapRecord.Store.RecordPaymentStarted | swap-client/src/store.rs:189-199 | the marker is written once and success means it is on disk |
| SwapRecord.Store.RecordFundingIntent | swap-client/src/store.rs:206-212 | success means the intent is on disk |
| SwapRecord.Store.RecordFunded | swap-client/src/store.rs:215-226 | the outpoint is set in the same write that clears the intent |
| SwapRecord.Store.RecordOurSpend | swap-client/src/store.rs:232-236 | equals the bounded list of spends |
| SwapRecord.NothingIsForgotten | swap-client/src/store.rs:106-244 | over any steps and failed writes the record never forgets that a funding may exist, that a payment may be submitted, the acceptance or the request |
| SwapRecord.AnsweredStaysAnswered | swap-client/src/store.rs:124-181 | a stored acceptance always answers the stored request, and what is executed are its terms |
| SwapRecord.FreshMeansNothingDone | swap-client/src/resume.rs:148-154 | a resumed run counts as a first run only if nothing was ever funded, paid or broadcast, and for a reverse swap only if the record would know |
| SwapRecord.RecentSpendsAreKnown | swap-common/src/store.rs:479-501 | a noted spend is still known after any further notes its place leaves room for |
| SwapRecord.SpendsAreKnownExactly | swap-common/src/store.rs:479-501 | after any further notes a spend is recognised exactly if it is among the last sixteen that were new when noted (or nothing was noted since and it was the last one sent) |
| SwapRecord.OnlyNewSpendsTakeRoom | swap-common/src/store.rs:479-488 | for further transactions that are all new, a spend stays known exactly while the places above it have room |
| SwapRecord.ResendingTheOldestDoesNotKeepIt | swap-common/src/store.rs:479-488 | noting the oldest of sixteen again does not save it from the next new one |
| SpendDriver.ConfirmOrBump | swap-common/src/fee_bump.rs:155-319 | a confirmed transaction is ours, was built for this output or reported as its spend, and was seen deep enough; a conflicting spend is not ours; giving up is for the deadline, the clock or the number of checks; every broadcast was noted just before and goes out only when none of ours was known to be mined; the check that sees the deadline is the last |
| SpendDriver.Begin | swap-common/src/fee_bump.rs:178-203 | the live spend of an earlier run, when it is one of ours, is followed instead of replaced, and what is followed was built for this output or reported as its spend |
| SpendDriver.Push | swap-common/src/fee_bump.rs:231-292 | a vanished spend is put back at its rate; a mined one is left alone |
| SubmarineDriver.EstablishFunding | swap-client/src/submarine.rs:78-142 | the funding call is made only with the intent on disk, after a safe tip and an empty chain answer, and never when the record says a funding may exist; an outpoint goes on record only if the chain or the wallet named it |
| SubmarineDriver.AwaitRecordedFunding | swap-client/src/submarine.rs:145-200 | watches without funding; what it returns was seen on chain with the exact amount |
| SubmarineDriver.Execute | swap-client/src/submarine.rs:204-369 | the verdict of one run is what the chain and the node showed: claimed for a settled invoice or a revealing spend of the pinned output, refunded for a transaction with an input that spends it and shows no preimage; nothing is funded when a funding may exist, and no refund is broadcast before the timeout was seen |
| SubmarineDriver.Lifetime | swap-client/src/resume.rs:96-115 | over any number of runs with a crash anywhere the funding call is made at most once and stays on record; a claimed verdict means the invoice was paid, where the preimage is learned only by paying; a refunded one means a transaction that spends the pinned output and shows no preimage was final or reported as its spend; cleanup is scheduled only after one of these |
| SubmarineDriver.OneRun | swap-client/src/submarine.rs:204-369 | from any record earlier runs can leave, one process keeps what holds between runs, and no verdict it reaches leaves the client without both: claimed implies that the invoice was paid before, refunded that the pinned output, which the chain or the wallet named, was spent back |
| ReverseDriver.NoPaymentIsLive | swap-client/src/reverse.rs:100-119 | an authoritative "no payment" answer means exactly that none holds or took the money |
| ReverseDriver.NotPayingMeansNoneLive | swap-client/src/reverse.rs:100-119 | whenever the decision is to pay, no payment is in flight or settled |
| ReverseDriver.StartPayment | swap-client/src/reverse.rs:100-134 | a payment is started exactly when the status answer leaves no payment that may be under way, with the marker on disk before the payment task starts |
| ReverseDriver.Weigh | swap-common/src/chain.rs:231-261 | an output is taken exactly when it is the only one, within the tolerance and deep enough; a wrong amount or a second output ends the wait |
| ReverseDriver.AwaitHtlc | swap-client/src/reverse.rs:148-207 | no acceptable output is passed over and nothing is revealed while waiting |
| ReverseDriver.PassGate | swap-client/src/reverse.rs:148-223 | a tip read after the accepted output still leaves the claim its margin |
| ReverseDriver.Execute | swap-client/src/reverse.rs:83-317 | nothing is broadcast unless the gate was passed; every claim spends the output found and is signed over its value; success is a deep enough transaction with an input that spends that output; every earlier exit keeps the preimage secret |
| ReverseDriver.Lifetime | swap-client/src/resume.rs:117-143 | over any number of runs with a crash anywhere at most one payment for the hash is in flight or settled, the marker is never cleared, and every broadcast went out after the gate for its own output was passed in the same run |
| Negotiator.Negotiator.TryPreferred | swap-client/src/negotiate.rs:788-817 | one resend after an uncertain attempt, none after an unreachable one; the failed attempts and the reply are exactly what the provider was sent and answered |
| Negotiator.Negotiator.Exchange | swap-client/src/negotiate.rs:788-834 | nothing sent exactly when every attempt that was carried stayed here; a certain reply means all earlier attempts did; both read off what the provider was really sent |
| Negotiator.Negotiator.Create | swap-client/src/negotiate.rs:886-915 | success returns the provider's own acceptance for the quote; a refusal without a lookup means no swap exists or ever will |
| Negotiator.Negotiator.Recover | swap-client/src/negotiate.rs:921-966 | gives up only when the last lookup carried was answered by a refusal of that very query, or the window passed; success is what the last lookup carried found |
| Negotiator.Negotiator.RecoverCreation | swap-client/src/negotiate.rs:770-786 | success returns the provider's own acceptance, from any earlier state |
| DmChannel.PollOnce | swap-client/src/negotiate.rs:500-562 | the classification loop equals its specification, with every failing acknowledgment |
| DmChannel.HeldRepliesAreForTheQuote | swap-client/src/negotiate.rs:599-651 | what is held under a creation's key carries an acceptance for exactly that quote |
| DmChannel.OnlyFinishedAreAcknowledged | swap-client/src/negotiate.rs:503-548 | only read-only replies and acceptances already on record are acknowledged on sight |
| DmChannel.TakenIsTheAnswer | swap-client/src/negotiate.rs:514-559 | what is taken answers that very request, and everything held carries the same acceptance |
| DmChannel.AcceptanceSurvives | swap-client/src/negotiation_recovery.rs:231-250 | for a provider that gives one acceptance for a quote, in every run each creation reply is still pending on disk or an equal acceptance is on disk in a swap record |

## Left out

- File mechanics: locks, permissions, temporary files, JSON, format versions. A journal has one process at a time. A write that reports success is taken as durable, including the swap record's, whose directory sync result the code ignores.
- Cryptography and encodings: encryption, signatures, scripts, transaction building, invoice decoding, key handling; a digest is its content and a prepared message is its id, owner, recipient and payload.
- The asynchronous tasks of `pubky-transport/src/lib.rs`: `process_outbox`, `publish_saved` and `resource_lock` are steps of `OutboxProtocol`, not methods; the homeserver loses nothing by itself.
- OutboxLaws.VariablePartIsSmall: byte sizes take one byte a character, so strings are ASCII there; the bytes of an entry's fixed fields are a parameter.
- PollLaws.OverduePeersAreNotStarved: starts counting strictly after the instant the peer fell due, so a peer falling due at that very instant is not counted against it; a peer whose own last poll timed out may wait for the quota of stretched polls.
- PeerInbox.Inbox.Complete: jitter is any value in the last quarter of the interval; statistics, logging and the enforcement of poll deadlines are not modelled.
- InboxProtocol.StepKeepsInv: peers are canonical names; the lease counter does not wrap; reads of one peer may interleave, which allows more than the slot they queue on.
- SwapRecord.NothingIsForgotten: covers the client's steps; reorganisation marks and the provider's fields are written by code outside this model.
- SpendDriver.ConfirmOrBump: fee estimation and escalation are any values, the wall-clock limit may expire at any check, and a broadcast returns the id of the transaction it was given.
- SubmarineDriver.Execute: that a run ends with a verdict is not claimed, only that a verdict is true; a spend of the pinned output that shows no preimage is reported as a refund before it is final, as the code does.
- SubmarineDriver.Lifetime: assumes of the chain what the HTLC enforces (a refund shows no preimage, a spend that shows none was made by this client, and a built or reported spend has an input that spends the output) and of Lightning that the provider learns the preimage only by paying; each assumption is a hypothesis of the one clause that needs it.
- ReverseDriver.Lifetime: a payment submission reaches the node before its process ends or never, and the node's definite answers are true.
- ReverseDriver.Execute: CLTV bounds and routing fees of the payment are not modelled.
- Negotiator.Negotiator.Recover: a provider may refuse a status query although the swap exists; the error then makes no claim, and the model makes none either.
- DmChannel.AcceptanceSurvives: message identities are never reused, one provider is modelled, and its replies over the direct channel give the same acceptance as its messages.
- The request kinds beyond creation and status (offers, quotes, listing), request deadlines, doorbell retries and the signed channel are not modelled beyond how their replies are classified.
- Validation of offers, quotes, contracts, invoices and execution windows, record restoration, wallet and node adapters, the provider daemon, configuration and command line are not part of this model.
