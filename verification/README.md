# The delivery pipeline of fiducia-messaging, in Dafny

fiducia-messaging moves messages from a producer's Postgres transaction to NATS JetStream and
into a consumer's transaction. A producer stages a row in an outbox table; any number of relays
lease rows, hand them to the broker and record what came of it; consumers drop redeliveries.
This project models that pipeline and proves what it is for: no accepted row is lost, exactly
when a message reaches the stream and when it reaches it twice, and that work is bounded.

Times and durations are milliseconds. Run `dafny verify dfyconfig.toml`.

## What is modelled

- **Outbox table** (`OutboxTable.dfy`). Every SQL statement is one atomic step, given by its
  WHERE clause (`Selects`) and its SET clause (`Rewritten`). Marks test only id and owner, as
  in the source.
- **Relays as a transition system** (`Pipeline.dfy`, `PipelineInvariant.dfy`,
  `PipelineTheorems.dfy`, `PipelineContent.dfy`, `PipelineProgress.dfy`, `StagedKeys.dfy`,
  `Delivery.dfy`). Each batch is a worker with a program counter. Steps are one statement, one
  broker call, one tick, one crash, one enqueue or one purge; they interleave freely, and a
  database call may fail before or after it took effect. A ledger records what happened to each
  accepted enqueue; no step reads it. The invariant states what the marks rely on: an owned row
  is pending, owner and expiry are set together, the rows of a claim share one expiry, owners
  are drawn fresh for each batch.
- **The stream** (`BrokerCopies.dfy`, `LateRecovery.dfy`, `ReusedKey.dfy`): when a message gets a
  copy of its own, when it gets a second one, and the runs at which either goes wrong.
- **The drain loop itself** (`Drainer.dfy`). A class with the loop of `drain_claimed` and its
  three exits, proved equal to a function of the clock, the database faults and the broker's
  answers. `LoopIsRun.dfy` proves that every execution of the loop is a run of its worker in the
  transition system, call for call; `DrainerOutcome.dfy`, `DrainerTheorems.dfy`
  and `DrainerFaults.dfy` give the exact fate of every row, the termination measure, the outage
  bounds and what a database error or a lost lease leaves behind.
- **The compat drainer** (`Compat.dfy`, `CompatOutcome.dfy`) and its relation to the leased one
  (`Refinement.dfy`). `LimitCases.dfy` holds concrete tables on which the drainers fall short.
- **The pure relay and the recording publisher** (`Relay.dfy`).
- **Consumer dedup**: the two-map LRU (`LruInbox.dfy`), the message-id-keyed claim table
  (`InboxTable.dfy`) and the per-consumer transactional inbox (`ConsumerInbox.dfy`,
  `ConsumerClaims.dfy`).
- **Naming** (`Subjects.dfy`, `SubjectTokens.dfy`, `DedupId.dfy`): the subject parser and
  printer, the guards, and the length-prefixed dedup id.

Claim choice, owner ids, the clock, broker answers, database faults, payload serialization and
SHA-256 are inputs. The application clock and the database clock are one monotone clock. The
broker suppresses a dedup id it stored less than one window ago.

## Where the code differs from its documentation

- The backoff cap of five minutes never binds: the largest deferral is 256 s (`BackoffBounds`).
- `claim_ttl + MAX_PUBLISH_BACKOFF` is documented as the worst-case gap before a re-publish. No
  window bounds that gap while every relay may be down. `OneCopyExactly` says when a run keeps
  one copy per id, `LateRecoveryThreshold` gives the outage after a crash from which it does
  not, and `OneCopyPerMessage` takes promptness as an explicit hypothesis.
- The retention age is documented to have to exceed the stream's window, and no code checks it.
  `PublishedHasOwnCopy` shows what the rule is good for, and `ReuseThreshold` what happens
  without it: a message staged under a purged row's key is acknowledged, marked published and
  stored nowhere.
- A batch that meets a dead broker does not always restore the rows behind the failed one: a
  row that carried another owner's lapsed lease comes back without it. `DeadBrokerBatch` says
  exactly when a row is restored, and `DeadBrokerCostsLapsedOwner` is a reachable table on
  which one is not.
- `begin` is documented to reject a conflicting claim of another tenant rather than report a
  duplicate. If that claim is purged between the lost insert and the read-back, it reports a
  duplicate: `VanishedClaimHidesTenant`. `DuplicateMeansDone` says when the tenant is known.
- ARCHITECTURE.md section 6.4 says the compat path publishes over core NATS without a message
  id. The code publishes over JetStream, awaits the acknowledgement and sets `Nats-Msg-Id` to
  the message id. The model follows the code.
- The two drainers agree except on a row refused on its last attempt, which the leased one
  parks and the compat one keeps retrying (`LeasedRefinesLocking`; `RefusalOnLastAttemptParts`
  is such a batch).

## Model

| member | source | states |
|---|---|---|
| PipelineInvariant.NextKeeps | src/db.rs:126-144 | every step of every relay keeps the invariant the marks rely on: owned rows are pending, owner and expiry go together, one claim shares one expiry, no owner is reused |
| PipelineInvariant.Reachable | src/db.rs:620-721 | the invariant holds after any run from an empty table |
| PipelineInvariant.AdvanceKeeps | src/db.rs:643-721 | no position of a batch, with any broker answer and any database fault, breaks the invariant |
| PipelineInvariant.ClaimKeeps | src/db.rs:126-144 | a claim, its reply received or lost, keeps it |
| PipelineTheorems.StepOnRow | src/db.rs:231-393 | a row changes only by the statement of the step, and goes only when a purge finds it published and old enough |
| PipelineTheorems.NeverOwnedAgain | src/db.rs:620-622 | an owner that no longer holds a row never holds it again, in any run |
| PipelineTheorems.StaleOwnerFenced | src/db.rs:231-252 | once a row has left an owner, no later mark, park, reschedule or release by that owner changes it, although the marks never test status or expiry |
| PipelineTheorems.TerminalForever | src/db.rs:485-488 | a published or failed row never changes again, and only a published one can go |
| PipelineTheorems.TicketsStay | src/db.rs:65-100 | an accepted enqueue keeps its identity in every continuation, and a row that went does not come back |
| PipelineTheorems.Conservation | src/db.rs:643-721 | every accepted enqueue is at all times exactly one of pending, failed, published or purged, content unchanged; published and purged rows were acknowledged, the stream holds a copy under their dedup id, and exactly one mark took effect on them; on others none did |
| PipelineTheorems.BatchExit | src/db.rs:620-721 | when a batch returns Ok, on any exit and under any interleaving, no row is under a live lease of its owner |
| PipelineTheorems.ErrorExit | src/db.rs:626-640 | the release after a database error, if it takes effect, leaves the batch no row |
| PipelineTheorems.AttemptAccounting | src/db.rs:361-365 | attempts plus releases equal staged attempts plus claims, and the floor at zero never clips an owned row |
| PipelineTheorems.TransportParkNeedsAttempts | src/db.rs:723-742 | a row parked for a refused call had at least max_attempts claims that were not given back |
| PipelineTheorems.ReleaseMissesOffered | src/db.rs:708-719 | the release after a refused call gives back only rows the batch never offered |
| PipelineTheorems.OffersWithinAttempts | src/db.rs:643-721 | without database errors released claims were never offered, and broker calls never exceed the attempts charged |
| PipelineTheorems.NoStrandedRow | src/db.rs:126-144 | a due pending row is claimable or under exactly one live lease, never both; left alone it is claimable within its owner's lease and 256 s |
| PipelineContent.OffersWhatWasEnqueued | src/db.rs:652-671 | over all runs the broker is only offered the subject, payload and dedup id of the enqueue concerned, and only canonical subjects with up to 1 MiB of payload, rows staged before the guard included |
| PipelineContent.LeaseSeenBeforeCall | src/db.rs:672-686 | no batch stands before a broker call without having seen its lease on that very row alive in its last step |
| PipelineContent.OldestFirst | src/db.rs:126-144 | batches work in order of creation |
| PipelineContent.NoEarlyRetry | src/db.rs:340-351 | no relay claims a refused row before it is due, a second or more after the refusal |
| BrokerCopies.OwnCopyExactly | src/db.rs:515-519 | a message gets its own copy in the stream if and only if one of its calls that reach it falls outside the window of every other message's copy under its id; acknowledged or not, it is lost exactly when none does |
| BrokerCopies.NotShadowed | src/db.rs:515-519 | while purges wait out the window, a call for a row its batch still owns is never taken for another message |
| BrokerCopies.PublishedHasOwnCopy | src/db.rs:515-525 | so if every purge age is at least the window and every call is for a row still owned, every published or purged message has a copy of its own, however often its key is used again |
| ReusedKey.ReuseThreshold | src/db.rs:515-519 | a published row is purged and its key used again, without any fault: for every window, age and gap the second message ends up published, and it is stored exactly if the gap is at least the window |
| ReusedKey.StalledCallShadows | src/db.rs:663-700 | nor does retention alone do: for every window and every longer age there is a run in which a relay that stalled between lease check and broker call makes the next message under the key miss the stream |
| ReusedKey.ReuseRunIsOrderly | src/db.rs:515-519 | the run of the threshold has no database error and no crash |
| BrokerCopies.OneCopyExactly | src/outbox.rs:51-64 | per dedup id and per message: a run stores nothing twice if and only if none of its broker calls reaches the stream when that has a copy already and all copies under the id are a window or more old |
| BrokerCopies.PromptIsNotLate | src/outbox.rs:51-64 | lease times and the backoff bound put a prompt re-publish inside the window of every earlier copy |
| BrokerCopies.PromptStoresOnce | src/stream.rs:107-125 | so relays that verified the window and recover promptly store nothing twice, per id or per message according to which copies they are prompt after |
| Outbox.WindowRule | src/stream.rs:107-125 | a window passes exactly if it reaches over one lease and five minutes; ten minutes are just enough for the default lease |
| BrokerCopies.OneCopyPerMessage | src/stream.rs:107-125 | with a verified window, prompt recovery, purges that wait out the window and calls for rows still owned, the stream holds exactly one copy of every published or purged message, its own |
| LateRecovery.LateRecoveryThreshold | src/outbox.rs:51-64 | after a crash between acknowledgement and mark, for every window and every outage of at least the lease, the broker ends with two copies exactly if the outage is at least the window |
| LateRecovery.LateRunIsOrderly | src/stream.rs:107-125 | that run has no database error and one lease length |
| Drainer.OutboxPublisher.DrainClaimed | src/db.rs:643-721 | the loop computes the specified table, calls, clock and result on each of its exits |
| Drainer.OutboxPublisher.PublishBatch | src/db.rs:620-641 | claim, drain and the release after an error compute the specified batch |
| DrainerFaults.ReleaseFollowsError | src/db.rs:625-640 | after a granted claim, a batch that reports an error made the release its last database call, right after the one that failed; unless that call too took no effect it holds no row any more |
| DrainerFaults.OneFaultStrandsNothing | src/db.rs:625-640 | whichever single database call after the claim fails, and however, the batch that reports it holds no row any more |
| DrainerFaults.CountIsPublished | src/db.rs:687-706 | the number a batch reports is the number of rows it published, whichever calls fail and whichever rows are still its own |
| DrainerFaults.LostLeaseStops | src/db.rs:672-686 | a batch whose head lost its lease ends with success, calls nobody and leaves the table as it is |
| Drainer.OutboxPublisher.RecordFailure | src/db.rs:723-747 | a held row loses its owner and keeps its attempts and the error; it is failed on its last attempt, else pending and due in 1 s to 256 s; no other row changes |
| Drainer.OutboxPublisher.ClaimStillHeld | src/db.rs:256-300 | an answer is yes exactly when the row is the owner's and its expiry lies ahead; nothing changes |
| LoopIsRun.DrainIsRun | src/db.rs:643-721 | every execution of the loop is a run of nothing but the clock and its worker, with the same table and verdict, the same broker calls and acknowledgements, and one database call for each of the loop's with the same fate |
| LoopIsRun.BatchIsRun | src/db.rs:620-641 | every batch, faults and lost replies included, is such a run of a fresh worker, broker call for broker call and database call for database call |
| LoopIsRun.LoopExit | src/db.rs:620-721 | hence the loop, run on the table of any reachable state with any clock, faults and broker, has the exit property |
| DrainerOutcome.DrainOutcome | src/db.rs:643-721 | in an undisturbed batch each record is parked, sent, refused or not reached, as its content and the broker's answers say, and its row is settled accordingly; the calls and the count follow |
| DrainerOutcome.TimeMovesOn | src/db.rs:643-721 | the clock never goes back during a batch, and stands still if no call takes time |
| DrainerTheorems.BatchOutcome | src/db.rs:620-721 | the same for a whole batch in terms of the rows before the claim; rows not picked are untouched |
| DrainerTheorems.BatchProgress | src/db.rs:643-742 | every non-empty undisturbed batch strictly decreases the sum over pending rows of 1 + max(0, max_attempts - attempts) |
| DrainerTheorems.FinitelyManyBatches | src/db.rs:643-742 | there are at most as many non-empty batches as that sum |
| DrainerTheorems.NoWorkLeft | src/db.rs:643-742 | the sum is zero exactly when every row is terminal |
| DrainerTheorems.PendingRowGivesBatch | src/db.rs:126-144 | a pending row whose due time and lease have passed can be claimed |
| DrainerTheorems.BoundedBrokerCalls | src/db.rs:643-742 | over any number of undisturbed batches a row gets no more broker calls than attempts, and at most max_attempts in all if staged with none |
| PipelineProgress.SettlementsBounded | src/db.rs:643-742 | relays may overlap, crash, lapse and lose replies: the sum over pending rows of 1 + max(0, max_attempts - attempts used), an owned row's open attempt not counted, never rises between enqueues and falls with every mark, park and reschedule |
| PipelineProgress.FinitelyManyFinished | src/db.rs:643-742 | so overlapping undisturbed relays finish at most as many non-empty batches as that sum, each of them settling a row |
| PipelineProgress.NoWork | src/db.rs:643-742 | that sum is zero exactly when every row is terminal |
| PipelineProgress.OffersWithinLimit | src/db.rs:643-742 | in undisturbed runs of overlapping relays a message gets at most max_attempts broker calls, less the attempts it was staged with |
| DrainerTheorems.DeadBrokerBatch | src/db.rs:643-721 | with a dead broker a batch parks the invalid rows in front, charges the first valid one, and gives the rest back; a later row is as before exactly when it carried no lapsed owner |
| LimitCases.DeadBrokerCostsLapsedOwner | src/db.rs:361-393 | a reachable table and an undisturbed dead-broker batch after which a later row has lost its lapsed owner |
| DrainerTheorems.OutageChargesOnePerBatch | src/db.rs:361-393 | an outage of n batches charges the valid rows of the whole table at most n attempts |
| Compat.CompatPublisher.Drain | src/transactional.rs:123-194 | the loop of the compat drainer computes the specified rows, calls and result |
| Compat.CompatPublisher.PublishBatch | src/transactional.rs:123-194 | begin, locking select, loop and commit compute the specified transaction |
| CompatOutcome.CompatAtomic | src/transactional.rs:123-194 | under any faults the table is as it was or as the fates of the whole batch say; success means the latter, an error the former unless the reply to a commit was lost; the calls made stay made, all of them or a first part; without a fault it succeeds |
| Refinement.SameBackoff | src/transactional.rs:14-21 | the compat backoff of the attempts before the increment is the leased backoff of the attempts after it |
| CompatOutcome.CompatBatchOutcome | src/transactional.rs:123-194 | a fault-free compat batch over any rows: an invalid row is deferred with its defect and the loop goes on, a refused one is deferred and ends it, the rest are sent or left alone; calls, count and all other rows follow |
| Refinement.SameFates | src/transactional.rs:35-57 | on matching valid rows the two drainers assign the same fates and make the same calls, headers and the error prefix aside |
| Refinement.TwinSettled | src/db.rs:723-742 | the same fate leaves twin rows twins exactly unless it is a refusal on the last attempt |
| Refinement.LeasedRefinesLocking | src/transactional.rs:123-194 | on the same valid rows both drainers make the same calls and report the same count, and their tables agree exactly unless a row was refused on its last attempt |
| LimitCases.RefusalOnLastAttemptParts | src/db.rs:723-742 | for every attempt limit, twin tables and a batch both drainers can run after which they are twins no more |
| OutboxTable.BackoffBounds | src/db.rs:340-351 | a deferral is between 1 s and 256 s, and the five-minute cap never binds |
| OutboxTable.ForeignRowsUntouched | src/db.rs:231-252 | an owner-conditioned statement cannot touch another owner's row |
| OutboxTable.UniqueKeysKept | migrations/0002_tenant_dedup_and_claim_leases.sql:23-32 | all statements keep dedup ids and scoped keys unique |
| OutboxTable.PurgeTakes | src/db.rs:485-488 | retention takes exactly the published rows dated before the cutoff, never a pending or failed one |
| OutboxTable.ConflictIsScopeConflict | src/db.rs:65-90 | on rows with derived ids, and no hash collision, the dedup-id and scoped-key constraints are one |
| Delivery.StagedIsClaimable | src/outbox.rs:158-178 | a constructed message is staged exactly if it passes the guard and hits no constraint; its row has the producer's content, is pending, unowned and without attempts, and any relay can claim it at once and until one does; no other row changes |
| Delivery.PickedIsDelivered | src/db.rs:643-721 | an undisturbed batch that picks the row, with an acknowledging broker, sends the producer's subject, the dedup id of tenant and key and the serialized payload, and leaves the row published, free and without error |
| Delivery.EveryMessageIsAccountedFor | src/db.rs:643-721 | conservation of every accepted enqueue of constructed records, nothing assumed of its row |
| Delivery.EveryMessageOnce | src/db.rs:515-525 | every published or purged constructed message has its own copy under long retention and calls for rows still owned, and only one if relays are prompt |
| Delivery.CallsWithinLimit | src/db.rs:723-742 | in undisturbed runs a constructed message gets at most max_attempts broker calls in all |
| StagedKeys.RowsAreDerived | src/outbox.rs:142-186 | in every run that enqueues constructor-built records, every row carries the dedup id of its tenant and key |
| StagedKeys.OneConstraint | migrations/0002_tenant_dedup_and_claim_leases.sql:23-32 | so of every reachable table: an enqueue is refused exactly when its id or its scoped key has a row |
| StagedKeys.RepeatedEnqueueIsNoOp | src/db.rs:65-100 | while the first row exists, any later enqueue under its tenant and key changes nothing, whatever relays, crashes and purges did in between |
| Outbox.CanonicalGuardIsStricter | src/transactional.rs:45-57 | whatever passes the canonical guard passes the compat guard |
| DedupId.ComputeDedupId | src/outbox.rs:210-229 | the piecewise hasher updates and the rendering loop compute the specified id |
| DedupId.PreimagePrefixFree | src/outbox.rs:210-229 | no preimage is a prefix of another: the encoding of tenant and key is prefix-free and injective for keys shorter than 2^64 bytes |
| DedupId.PreimageBytes | src/outbox.rs:210-221 | the encoding of a global and of a tenant scope, byte for byte |
| DedupId.HexSpelling | src/outbox.rs:224-228 | digits are written high one first, in lower case |
| DedupId.HexInjective | src/outbox.rs:224-228 | the hexadecimal rendering is injective |
| DedupId.RenderShape | src/outbox.rs:222-228 | an id is `v1-` and 64 lowercase hexadecimal digits, and determines the digest |
| DedupId.DedupIdIdentifiesScope | src/outbox.rs:205-229 | if the hash does not collide on two scopes, their ids are equal exactly when they are |
| Subjects.JoinSplit | src/subjects.rs:147-167 | joining the parts of a split gives the text back |
| Subjects.SplitJoin | src/subjects.rs:147-167 | splitting a join of dot-free parts gives the parts back |
| Subjects.ParsePrint | src/subjects.rs:97-167 | a text parses to a subject exactly when the subject is valid and prints as that text, byte for byte |
| SubjectTokens.CanonicalSetParses | src/subjects.rs:20-43 | every subject the repository defines parses to its group, event and version |
| SubjectTokens.PlainSubjectParses | src/subjects.rs:68-85 | tokens of lower-case letters, digits and inner hyphens, not as long as a UUID is written, and a positive 32-bit version make a subject, spelled as documented |
| SubjectTokens.ParsedIsClean | src/subjects.rs:68-85 | nothing else parses: four tokens of lower-case letters, digits and inner hyphens, no wildcard, blank or upper-case letter |
| SubjectTokens.NoIdentifierInSubject | src/subjects.rs:80-83 | no UUID, in plain digits or hyphenated, is a token of a subject |
| SubjectTokens.PayloadLimit | src/outbox.rs:72-82 | a plain subject may carry exactly up to 1,048,576 bytes, on either path |
| Subjects.WildcardRoutes | src/subjects.rs:132-145 | a group wildcard matches a rendered subject exactly when group and version are equal |
| Subjects.CanonicalPassesCompatGuard | src/transactional.rs:35-43 | every canonical subject passes the compat guard |
| SubjectTokens.HistoricalNamesPass | src/transactional.rs:28-43 | the compat guard lets through any dot-separated tokens of visible characters without wildcards and not as long as a UUID is written |
| SubjectTokens.CompatGuardRefuses | src/transactional.rs:35-43 | it lets no white space, control character, wildcard, empty token or identifier through |
| RelayDrain.Publisher.Publish | src/publisher.rs:88-108 | a refused call stores nothing; an acknowledged one stores its message unless its id was seen |
| RelayDrain.Relay.Drain | src/outbox.rs:283-307 | the loop makes exactly the calls of the well-formed records, in order, reports each record on its side and leaves the store as the acknowledged calls make it |
| RelayDrain.OutcomeIsPartition | src/outbox.rs:231-307 | for any publisher the outcome is an order-preserving partition of the batch, published exactly where the record is well-formed and acknowledged |
| RelayDrain.AcknowledgedIsStored | src/outbox.rs:283-307 | the ids in the store afterwards are those before and those of the published side |
| RelayDrain.FirstPayloadWins | src/publisher.rs:96-107 | a store takes in, in order, exactly the messages whose id is new at their turn |
| RelayDrain.AcceptAllKeeps | src/publisher.rs:46-108 | what was stored stays, ids are stored once, and the seen set is the stored ids |
| RelayDrain.OnlyWellFormedCalls | src/outbox.rs:283-303 | a publisher hears only canonical subjects and payloads of up to 1 MiB, each with the content of a record of the batch |
| RelayDrain.FreshBatchIsStored | src/outbox.rs:283-307 | well-formed records under new ids are stored word for word, in order |
| RelayDrain.RecorderDrain | src/publisher.rs:53-57 | with the recorder every well-formed record is acknowledged |
| RelayDrain.ReplayIsFurthest | src/outbox.rs:258-264 | any number of crashed drains amounts to the one that got furthest |
| RelayDrain.CrashReplayIsInvisible | src/outbox.rs:258-307 | draining any prefixes and then the whole batch leaves the recorder as one drain does |
| LruInbox.Inbox.AcceptForTenant | src/outbox.rs:413-435 | accept answers false exactly when the id was used before and fewer than capacity distinct others were since; the new key is retained; the two maps stay mutual inverses with ticks below the next one |
| LruInbox.Inbox.ContainsForTenant | src/outbox.rs:443-446 | contains is exactly the history specification |
| LruInbox.Inbox.Len | src/outbox.rs:449-451 | the retained keys number the distinct ids used, capped at the capacity |
| LruInbox.AheadIsSince | src/outbox.rs:413-435 | ahead of an id in recency order stand exactly the ids used since it |
| LruInbox.RetainedIsRemembered | src/outbox.rs:413-435 | the first capacity ids in recency order are those with fewer than capacity distinct others since |
| LruInbox.LargerRemembersMore | src/outbox.rs:391-435 | on one history a larger inbox retains whatever a smaller one does, so it never accepts what the smaller rejects |
| LruInbox.LargerAcceptsLess | src/outbox.rs:391-435 | over any history a larger inbox accepts no more uses than a smaller one, each accepts every distinct id at least once, and exactly once with room for all |
| LruInbox.ExactWithinCapacity | src/outbox.rs:350-368 | the inbox equals the unbounded set exactly when at most capacity distinct ids were used |
| LruInbox.RemembersScopes | src/outbox.rs:411-415 | without hash collisions the same holds of tenants and keys: one tenant's use of a key never makes another's a duplicate |
| InboxTable.Inbox.TryInsert | src/db.rs:438-455 | an attempt answers whether it stored its claim, and a lost reply is an error |
| InboxTable.Inbox.MarkProcessed | src/db.rs:458-479 | a mark stamps its claim and no other, and one that matches nothing still succeeds |
| InboxTable.Inbox.PurgeProcessed | src/db.rs:489-515 | a purge removes exactly the claims processed long enough ago and counts them |
| InboxTable.TrueAtMostOnce | src/db.rs:414-455 | two attempts sharing a message id or a scoped key both answer true only if a purge in between removed the first claim, already processed |
| InboxTable.GoneWasMarked | src/db.rs:489-491 | a stored claim goes only to a purge, and only after a mark of its message that took effect and is older than the purge's age |
| InboxTable.TwiceNeedsMarkAndPurge | src/db.rs:414-455 | two sharing attempts both answer true only if such a mark and then such a purge lie between them |
| InboxTable.UnmarkedOnce | src/db.rs:531-537 | without a mark at most one of them does, however many purges run |
| InboxTable.FalseIffAnEarlierClaimShares | src/db.rs:414-455 | without purges an attempt answers false exactly when an earlier stored claim shares its id or scoped key; an attempt that lost blocks nobody |
| InboxTable.NamespacesAreIndependent | migrations/0002_tenant_dedup_and_claim_leases.sql:40-53 | while message ids are not shared, a namespace's claims and answers are those of the run in which the others made no attempt |
| InboxTable.UnrelatedAttemptsCommute | migrations/0002_tenant_dedup_and_claim_leases.sql:40-53 | attempts that share nothing commute, in table and answers |
| ConsumerInbox.Session.Begin | src/inbox.rs:75-110 | begin answers as the claims at the insert and at the read-back demand, and writes a claim exactly when it answers Process |
| ConsumerInbox.Session.MarkProcessed | src/inbox.rs:113-140 | of the visible claims exactly the named one is stamped, with the transaction's start; none appears or goes |
| ConsumerInbox.BeginIsSteps | src/inbox.rs:75-110 | the steps of a transaction do what Session.Begin does |
| ConsumerInbox.NextKeeps | src/inbox.rs:10-18 | every step of concurrent transactions keeps effects, claims and purges in balance |
| ConsumerInbox.EffectsEqualClaims | src/inbox.rs:10-18 | in every run the committed effects of a consumer for a message equal its present claim plus its purged ones; without a purge at most one |
| ConsumerInbox.DuplicateMeansDone | src/inbox.rs:156-176 | Duplicate is answered only where an effect exists: the same tenant's when the claim was read back, a purged one's otherwise; TenantMismatch exactly when the claim is another tenant's |
| ConsumerInbox.ProcessWhenFree | src/inbox.rs:82-98 | Process is answered exactly when no committed or uncommitted claim holds the key, and then every earlier effect was purged |
| ConsumerInbox.OthersLeaveClaims | src/inbox.rs:10-18 | whatever other transactions, the clock and purges do, an open transaction keeps its uncommitted claims and nobody commits an effect for them |
| ConsumerInbox.ProcessedOnce | src/inbox.rs:15-18 | a transaction told to process that runs its effect, mark and commit, with any steps of others in between, adds exactly one effect and a claim stamped with its start |
| ConsumerInbox.RollbackLeavesNothing | src/inbox.rs:15-18 | a rolled-back or crashed transaction leaves claims, effects and other locks as they were |
| ConsumerInbox.ClaimsOnlyPurged | src/db.rs:492-494 | only a purge takes a committed claim away, and nothing changes its tenant |
| ConsumerClaims.PurgesOnlyOldClaims | src/db.rs:492-494 | every committed claim is stamped, and a purge takes exactly those stamped before its cutoff |
| ConsumerClaims.ClaimsAreNamed | src/inbox.rs:81-83 | every committed claim belongs to a consumer whose name is not blank |
| ConsumerClaims.NamelessIsRefused | src/inbox.rs:81-83 | a blank consumer is refused before anything is written, a name with a visible character is not |
| ConsumerInbox.VanishedClaimHidesTenant | src/inbox.rs:172-175 | for any two tenants there is a run in which one is told Duplicate though only the other had its effect |
| ConsumerInbox.ConsumersAreIndependent | src/inbox.rs:3-9 | a consumer's claims, effects, purges and answers after any run are those of the run of its own steps |

## Left out

- Postgres, SeaORM, NATS and tokio internals: statements are atomic, transactions commit or roll back as a whole, the broker is a timed dedup store.
- SHA-256 is a parameter; freedom from collisions is assumed of the scopes compared, never of all inputs.
- `Uuid::parse_str` is a predicate over the accepted text forms.
- TLS and dialing (`src/connect.rs`), envelopes and their codecs, stream provisioning beyond the window check, environment parsing, `main`, signals, logging, metrics and the lost-lease counter.
- Staging into the compat table (`transactional::Outbox::enqueue`); the model starts from its rows.
- `run` and `run_until`, which only repeat batches on a timer.
- The strings of the status column and the fallback for an unknown one; the model's status is a datatype.
- Overflow of ticks and of attempts past staging (which saturates); a window that saturates at the largest duration.
- Nanoseconds: durations are whole milliseconds, so a sub-millisecond duration is zero and rejected.
- Outbox.ErrorText: does not reproduce the wording of subject errors; the other texts that reach a row are the source's.
- `enqueue_outbox_tx` and the producer's own transaction: an enqueue is the commit of that transaction. `Enqueue` with `guarded` off stands for rows staged before the guard existed.
- PipelineTheorems.OffersWithinAttempts: assumes no database error, because the release after one also gives back rows already offered.
- BrokerCopies.OneCopyPerMessage: assumes prompt recovery, long retention and calls for rows still owned, because no window bounds an outage of every relay, no code checks the retention age, and a relay that stalls after its lease check may call the broker late; `OneCopyExactly` and `OwnCopyExactly` are the exact conditions.
- LoopIsRun.LoopExit: runs the loop without another relay's step in between, because the class owns its table; `BatchExit` has the interleavings.
- Refinement.LeasedRefinesLocking: compares valid rows on a clock that stands still; invalid rows are parked by one drainer and deferred by the other, and the error text of a refusal differs by the prefix `transport error: `.
- A transaction shared by several consumers, and effects outside the inbox's transaction, in `ConsumerInbox`.
- Errors of single statements inside a consumer's transaction: they abort it, which is the `Abort` step.
- Deadlocks between consumer transactions that wait for each other's claims: Postgres aborts one, which is the `Abort` step.
