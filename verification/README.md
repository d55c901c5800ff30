# Evolution placement, change control and media: a verified model

The hub places WhatsApp sessions ("instances") of many products onto shared hosts
("Evolutions"). Several replicas do so at once, over a database with row locks, leases and
revision counters, while talking to a remote that may fail or answer late. This project models
the parts where that is hard and proves what they promise. `dafny verify dfyconfig.toml`
checks it.

## What is modelled

**Provisioning.** `Tables` holds the shared tables as maps, `Provisioning` and `Protocol` every
transaction as one atomic step with the source's branches and refusals, and `Store` (module
`Transactions`) the same transactions as methods of a class that writes its tables in place.
`Invariants`, `Guarantees`, `Capacity` and `Versions` prove, over every interleaving of steps:
the name lock, link integrity, the life cycle of a row, the capacity limit, and that
`occupancyRevision` is a faithful version; `Overfilling` says exactly which steps break the
limit. `Occupancy` and `Admission` are the greedy count and the admission predicate, `Ambiguity`
the exact condition under which a count can be trusted. `Allocator` and `Relay` are the walk
over candidate hosts, with the writes of others between its pieces, and the webhook rewritten
per host. `Outcomes` and `Placement` say a second time, over the tables alone and without the
model's own tests, exactly when each transaction and each visit of the walk succeeds and what it
leaves behind.

**Executors.** `Executors` gives each request saga and recovery pass a program counter, a time
budget and remote calls that end in time, next to crashes, aborts and a remote others change at
will. `Exclusion` proves the invariants of every action, `Fencing` the theorems over whole
histories: no takeover while a call can be in flight, no effect of an evicted executor, one POST
per row, and no early release. `Progress` proves what gets done: exactly when a row is taken over,
that a creation whose calls succeed can be committed, and how recovery ends what it finds.
`RequestBudget` is the budget object.

**Configuration changes.** `Review` states the overlay evaluation, the apply writes and their
agreement with admission; `ReviewRun` has the loops; `ReviewEffects` what apply keeps, and
`ApplySteps` that an application is a run of protocol steps. `Deliveries` is the scan for
undelivered events. `ReviewMeaning` says over the tables exactly when a review is ready and what it
asks for. `ChangeControl`, `ChangeSafety`, `ChangeCourse` and `ChangeService` are the change state
machine, its theorems over every course of acts, one whole course, and the service as a class;
`ChangeMoves` says exactly when a change gets each status. `JsonText`, `CanonicalJson` and
`DraftText` prove that the request text is canonical.

**Media.** `Base64` is RFC 4648 (sections 3.2, 3.5 and 4) as a specification; `Media` has the
chunked validator, decoder and re-encoder as loops proved against it, `DataUri` the header a
media text may begin with, `MediaBody` the JSON body and its length in UTF-8 (RFC 3629).

**Relay events, batches, proxy replies.** `RelayEvents` binds events to instances beside the
provisioning steps, `RelayHistory` puts them beside the executors, `BatchBarrier` is the counter
barrier, `ProxyConfirmation` the round trip of a confirmed proxy.

A method that changes state is proved equal to a function of its old state, so a method that took
another branch would fail its own contract. The functions themselves are held by the lemmas about
them: the lemmas named `...Exactly` give conditions and results over the tables, in both
directions, and the theorems over runs say what those conditions are for. The methods of `Store`,
`Service`, `Ingress` and `QrRequestContext` that follow their function branch by branch have no row
below; the lemmas about the function do.

## What is taken for granted

- A transaction is atomic: the source locks the product and host rows it writes. Apply is split
  in two (lock and read, then review and write), because acts that do not take the product lock
  can come between; the database rolls it back after the 15 seconds it is given.
- All replicas share one clock that does not go back. Leases are measured with it.
- A remote call ends by the timeout it was given. A creating POST is sent once per call.
- New keys, lease owners and collection owners are never drawn twice.
- The database returns a host's rows in some order, which the model takes as a listing; a review
  and the admission it promises are compared under the same listing, since the ambiguity of a
  count depends on it.
- Keys and ids have a total order, and the hash of a request text is injective.

## What the proofs found

- `abandon` of a reservation that was never sent leaves `leaseExpiresAt` on the released row,
  and `pendingProvisionings` counts any row with one. From then on the product can neither be
  detached from that host nor go back to legacy mode. `Guarantees.ClosingLeavesPending` gives
  the exact condition, `Guarantees.AbandonedReservationBlocksForever` the consequence.
- The `ambiguous` flag of `occupancy` depends on the order of rows, for sessions the remote may
  well report (`Ambiguity.AmbiguityDependsOnOrder`). `Ambiguity.OrderDecides`, `EveryOrder` and
  `EveryListing` say exactly which orders, row sets and hosts are ambiguous; an unambiguous count
  never depends on the order.
- A creating import, the publication of an inventory and a lowered limit can put a host above its
  limit (`Overfilling.ImportOverfills`, `PublicationOverfills`, `LoweredLimitOverfills`), and
  nothing else can (`Capacity.NeverOverfilled`). `Overfilling.WithinExactly` is the exact condition
  over all runs, a test before each such step: room for the imported name, room for what a
  publication shows and what is reserved, a limit not below the names there.
- The last update of `apply` does not look at the change's status, so a change that expires while
  it is being applied ends up applied (`ChangeCourse.ExpiryDoesNotStopApply`).
  `ChangeSafety.BecomesApplied` is the exact condition. A caller can rely on two things: expired
  before its apply began, a change is never applied (`ExpiredBeforeApply`), nor is one that is not
  applied 15 seconds after its expiry (`NeverAppliedLate`).
- A restore of legacy mode is written without a second test, unlike a detachment. It is safe because
  the review runs in the same transaction (`Review.ReversalDelivers`, `RestoreDelivers`).
- `expired` and `failed` changes can still be cancelled, at their current revision
  (`ChangeSafety.ClosedCanBeCancelled`); only `applied` and `cancelled` are final.
- A queued relay job can go stale although its instance is there: when its host's adapter is
  edited (`RelayHistory.AdapterEditStalesJob`). `RelayEvents.JobStaleIff` is the exact condition.
- A batch is not marked as completed when its total expires before the last job looks
  (`BatchBarrier.ExpiryLosesTheBatch`), and counts too much when a stalled job runs again
  (`BatchBarrier.RerunMiscounts`); `AlwaysCompletedIff` and `CountsExactIff` are exact.
- Review is stricter than admission in two points: it asks for an Evolution host, and it counts
  unattributed sessions as a blocker (`Review.AdmissionMatches`).

## Model

| member | source | states |
|---|---|---|
| Occupancy.MergeIsFaithful | src/modules/provisioning/evolution-occupancy.ts:62-81 | When no row was ambiguous, the groups carry exactly the rows: distinct names, each group grounded in rows of its name, each row covered by a group. |
| Occupancy.UnambiguousMergeCountsNames | src/modules/provisioning/evolution-occupancy.ts:54-93 | An unambiguous `effective` is the number of distinct names among all rows, and `byProduct` gives each product the number of distinct names it owns, with no entry for a product that owns none. |
| Occupancy.UnambiguousRowsAgree | src/modules/provisioning/evolution-occupancy.ts:62-81 | An unambiguous answer proves that rows of one name never contradict each other on remote id or owner, so no name is counted for two products. |
| Occupancy.OrderDoesNotMatter | src/modules/provisioning/evolution-occupancy.ts:54-93 | Two readings of the same rows in any two orders, both unambiguous, give the same counts. |
| Occupancy.ConsistentRowsMerge | src/modules/provisioning/evolution-occupancy.ts:62-81 | Rows that agree by name and by remote id are never called ambiguous, in any order. |
| Occupancy.Find | src/modules/provisioning/evolution-occupancy.ts:64-70 | The first group that matches by name or by remote id, or none. |
| Occupancy.AddTo | src/modules/provisioning/evolution-occupancy.ts:62-81 | One row merged into the group list: appended when nothing matches, joined to the first match otherwise, with the ambiguity it causes. |
| Occupancy.AddPresent | src/modules/provisioning/evolution-occupancy.ts:83-84 | The pass over local instances skips exactly the ones reported absent. |
| Occupancy.CountByProduct | src/modules/provisioning/evolution-occupancy.ts:87-91 | Every group with an owner adds one to its owner and nothing else does. |
| Occupancy.CountSessions | src/modules/provisioning/evolution-occupancy.ts:54-93 | The whole count, in the order remote rows, present instances, reservations. |
| Occupancy.NormalizeInventory | src/modules/provisioning/evolution-occupancy.ts:17-40 | An inventory answer is accepted exactly when every row is usable and no name or id repeats; then it is read row by row, otherwise it is refused whole. |
| Ambiguity.OrderDecides | src/modules/provisioning/evolution-occupancy.ts:62-81 | One order of rows is ambiguous exactly when two rows of a name contradict each other, or a remote id met under one name comes again under a name that first occurred later. |
| Ambiguity.EveryOrder | src/modules/provisioning/evolution-occupancy.ts:62-81 | A set of rows is unambiguous in every order exactly when no name contradicts itself and no remote id stands under two names. |
| Ambiguity.EveryListing | src/modules/provisioning/evolution-inventory.service.ts:251-295 | Of a host: every listing (remote rows, then present instances, then open rows) is unambiguous exactly when no name contradicts itself and every id with two names has the one excuse that hides it: only instances give it to a name the remote does not show, only open rows to a name the remote shows without id. |
| Ambiguity.AmbiguityDependsOnOrder | src/modules/provisioning/evolution-occupancy.ts:54-93 | A database that keeps every invariant, and two answers of the remote with the same two sessions, both accepted, one ambiguous and one not. |
| Tables.UsedCountsOccupied | src/modules/provisioning/evolution-inventory.service.ts:251-295 | However the database lists a host's rows, an unambiguous count is the number of names taken there by remote sessions, non-absent instances and open reservations. |
| Admission.AdmittedWithinLimit | src/modules/provisioning/evolution-provisioning.service.ts:136-153 | Admission to a host with a limit means the names really taken there, plus the new one unless it is already reserved, fit the limit. |
| Transactions.Store.ReadOccupancy | src/modules/provisioning/evolution-inventory.service.ts:251-295 | Reads a host's count and ambiguity, with absence taken only from the report of the current inventory revision. |
| Transactions.Store.Admission | src/modules/provisioning/evolution-provisioning.service.ts:100-155 | Grants or refuses with the source's status, and may only add the link of a legacy product. |
| Transactions.Store.PrepareOn | src/modules/provisioning/evolution-provisioning.service.ts:292-362 | One candidate's reservation transaction: all of it or nothing, with its refusals in the source's order. |
| Transactions.Store.RecordCreated | src/modules/provisioning/evolution-provisioning.service.ts:431-467 | Records the instance once; a second call answers the recorded one; a collision leaves nothing behind. |
| Transactions.Store.RemoveConfirmed | src/modules/provisioning/evolution-provisioning.service.ts:593-641 | Deletes a confirmed session's instance and closes the holder's row as failed; without a holder an instance an open row recorded is refused. |
| Transactions.Store.Import | src/prisma/evolution-links.ts:56-142 | Creates, recognises the very same import, or refuses on any clash with an instance or an open row. |
| Transactions.Store.Classify | src/modules/provisioning/evolution-inventory.service.ts:146-172 | The two counters are both zero exactly when every remote session is explained and none contradicted. |
| Transactions.Store.PublishCollection | src/modules/provisioning/evolution-inventory.service.ts:124-222 | Publishes only under the own collection and unchanged revisions, and replaces entries, report and status together. |
| Invariants.StepKeepsInv | src/modules/provisioning/evolution-provisioning.service.ts:157-641 | Every step of anyone keeps row shape, recorded instances, name lock, unique indexes and link integrity. |
| Invariants.ReserveKeeps | src/modules/provisioning/evolution-provisioning.service.ts:322-357 | A reservation keeps the name lock: its name check covers every row and instance that could share the name. |
| Invariants.RecordCreatedKeeps | src/modules/provisioning/evolution-provisioning.service.ts:431-467 | Recording keeps the lock, the new instance being the row's own. |
| Invariants.RemoveKeeps | src/modules/provisioning/evolution-provisioning.service.ts:593-641 | Removal keeps all invariants, with or without a ticket. |
| Invariants.ImportKeeps | src/prisma/evolution-links.ts:56-142 | Import, the competing writer, keeps the name lock and the link of what it inserts. |
| Invariants.DetachKeeps | src/modules/provisioning/evolution-reversal.ts:137-191 | Detaching removes a link no instance, default or open row needs. |
| Invariants.RestoreLegacyKeeps | src/modules/provisioning/evolution-reversal.ts:97-135 | Restoring legacy mode leaves a default host that is linked. |
| Invariants.EditProductKeeps | src/modules/admin/products/products.service.ts:147-190 | A product edit links the new default host in the same transaction. |
| Invariants.EnsureLinkKeeps | src/prisma/evolution-links.ts:11-21 | Adding a link keeps all invariants. |
| Guarantees.HolderStepMovesRow | src/modules/provisioning/evolution-provisioning.service.ts:380-591 | A holder's step writes its own row only, and only while it owns it. |
| Guarantees.StepMovesRow | src/modules/provisioning/evolution-provisioning.service.ts:407-641 | Under any step a row keeps identity and moves along the allowed state graph, with a higher revision whenever its state changes. |
| Guarantees.RunKeepsInv | src/modules/provisioning/evolution-provisioning.service.ts:157-641 | The invariants hold in every state of every interleaving. |
| Guarantees.RowLife | src/modules/provisioning/evolution-provisioning.service.ts:407-641 | Over any run a row is never lost, renamed, moved or taken back to an earlier state, and terminal states are never left. |
| Guarantees.AuthorisedAtMostOnce | src/modules/provisioning/evolution-provisioning.service.ts:407-429 | `markCreating` succeeds at most once per row, and the row is never released afterwards. |
| Guarantees.RecordingOnlyFailsOnRemoteId | src/modules/provisioning/evolution-provisioning.service.ts:431-467 | For an owned sent row, recording succeeds exactly unless a new instance's remote id is already recorded on that host: no name collision is possible. |
| Guarantees.ClosingLeavesPending | src/modules/provisioning/evolution-reversal.ts:7-23 | A row that closes still counts as pending exactly when `abandon` closed it. |
| Guarantees.AbandonedReservationBlocksForever | src/modules/provisioning/evolution-provisioning.service.ts:552-591 | Once a reservation was abandoned, detaching its host and restoring legacy mode are refused for ever. |
| Capacity.ReservationFits | src/modules/provisioning/evolution-provisioning.service.ts:292-362 | A reservation takes exactly one new name on its host, within the limit, and none elsewhere. |
| Capacity.AuthorisationFits | src/modules/provisioning/evolution-provisioning.service.ts:407-429 | A creation is authorised only in a state where the taken names, its own among them, fit the limit. |
| Capacity.ProgressFreesOnly | src/modules/provisioning/evolution-provisioning.service.ts:407-641 | No later provisioning step, recovery or removal takes a name that was free. |
| Capacity.OthersKeepRoom | src/modules/provisioning/evolution-provisioning.service.ts:136-153 | Every step that is neither of the protocol nor a creating import, a publication or a limit edit of this host leaves the taken names and the limit as they are. |
| Capacity.NeverOverfilled | src/modules/provisioning/evolution-provisioning.service.ts:136-153 | Over any run without a creating import on the host, a publication of its inventory or an edit of its limit, the taken names stay within the limit, or within what those had left before. |
| Capacity.RemovalFreesName | src/modules/provisioning/evolution-provisioning.service.ts:593-641 | A removal that goes through frees exactly the session's name on its host and none elsewhere. |
| Versions.StepVersions | src/modules/provisioning/evolution-locks.ts:28-36 | Every step that changes a host's instances or open reservations raises that host's version. |
| Versions.EqualVersionsEqualState | src/modules/provisioning/evolution-locks.ts:28-36 | Along any run equal versions of a host mean equal instances and equal open reservations. |
| Versions.StepKeepsTimely | src/modules/provisioning/evolution-inventory.service.ts:77-109 | At the version a collection started from, every instance of the host is older than its start. |
| Versions.RunKeepsTimely | src/modules/provisioning/evolution-inventory.service.ts:77-109 | And so in every state of a run, at any later clock. |
| Versions.PublishedOccupancy | src/modules/provisioning/evolution-inventory.service.ts:174-222 | In any run, right after a publication the taken names on its host are the remote names together with the open reservations' names. |
| Versions.CollectionKept | src/modules/provisioning/evolution-inventory.service.ts:77-109 | While an owner's collection stands in the tables it is the one that owner began, as begun. |
| Versions.PublishedAgainstStart | src/modules/provisioning/evolution-inventory.service.ts:124-141 | A publication that goes through classifies against exactly the local state in which its collection began. |
| Versions.ReadyExplainsRemote | src/modules/provisioning/evolution-inventory.service.ts:146-205 | `ready` means every remote session is a known, uncontradicted instance or proven to be an open row's. |
| Versions.PublishedFromNothing | src/modules/provisioning/evolution-inventory.service.ts:174-222 | And so at every publication of any run that starts before anything was placed or collected. |
| Overfilling.ImportTakes | src/prisma/evolution-links.ts:56-142 | A creating import takes exactly its name on the host, with no look at the limit. |
| Overfilling.ImportFits | src/prisma/evolution-links.ts:56-142 | It leaves a host within its limit exactly if the name was already taken or one was free. |
| Overfilling.PublicationFits | src/modules/provisioning/evolution-inventory.service.ts:174-222 | A publication does exactly if the names it shows and those of open rows together fit. |
| Overfilling.EditFits | src/modules/admin/vps/vps-provider.service.ts:192-213 | A limit edit does exactly if the names there fit the new limit. |
| Overfilling.StepKeepsWithin | src/modules/provisioning/evolution-provisioning.service.ts:136-153 | Of all steps: one leaves a host within its limit exactly if it meets its condition of those three, or needs none. |
| Overfilling.WithinExactly | src/modules/provisioning/evolution-provisioning.service.ts:136-153 | In every run a host stays within its limit throughout exactly if every step meets its condition when it is taken. |
| Overfilling.ApplicationFits | src/modules/admin/evolutions/evolution-changes.service.ts:462-469 | An applied draft leaves a host within its limit exactly if the limit it ends up with is not below the names there. |
| Overfilling.ImportOverfills | src/prisma/evolution-links.ts:56-142 | An import that puts a host of limit 1 with one session at two. |
| Overfilling.PublicationOverfills | src/modules/provisioning/evolution-inventory.service.ts:174-222 | A publication that does the same, by showing a session nobody placed. |
| Overfilling.LoweredLimitOverfills | src/modules/admin/evolutions/evolution-change-checks.ts:401-446 | A draft that lowers a limit from 2 to 1 on a host with two sessions: it can be made, its review is ready, however rows are listed, and it is applied. |
| Frames.StepLeaves | src/modules/provisioning/evolution-provisioning.service.ts:157-641 | Which of products, instances and collections each step leaves exactly as they were. |
| RequestBudget.QrRequestContext.AssertActive | src/common/qr-request-context.ts:58-63 | Passes exactly when neither stopped nor out of time; running out becomes the reason. |
| RequestBudget.QrRequestContext.CallTimeout | src/common/qr-request-context.ts:65-73 | A granted call ends at least the finishing margin before the deadline; one that cannot fit stops the request. |
| Exclusion.ActionKeeps | src/modules/instance/instance.service.ts:107-264 | Every action of request sagas, recovery, administration, remote, clock and crashes keeps the ownership, evidence and history invariants. |
| Exclusion.TakesOverKeeps | src/modules/provisioning/evolution-recovery.service.ts:239-281 | A takeover keeps them: whoever held the row has outlived its budget and the margin. |
| Exclusion.OthersSpare | src/modules/provisioning/evolution-provisioning.service.ts:593-641 | Except for a claim, no step touches an open row other than its own holder's. |
| Exclusion.OwnTransaction | src/modules/instance/instance.service.ts:122-263 | What the owner's next transaction does to its row, for each point of the saga and of recovery. |
| Exclusion.LostTransaction | src/modules/provisioning/evolution-provisioning.service.ts:380-395 | A process that lost its row changes nothing, and ends or goes on to a transaction that is refused again. |
| Exclusion.CallsExclude | src/modules/provisioning/evolution-recovery.service.ts:239-281 | Two processes never both have a remote call under way for one row, and the other one's budget and margin are over. |
| Fencing.EmptyStart | src/modules/provisioning/evolution-provisioning.service.ts:157-378 | The invariants hold before the first reservation. |
| Fencing.HistoryKeepsInv | src/modules/instance/instance.service.ts:107-264 | They hold after any sequence of actions. |
| Fencing.CallHoldsRow | src/modules/provisioning/evolution-provisioning.service.ts:354-357 | While a call is under way its row is open, owned by the caller, keeps its slot, and its lease outlives the call by six seconds. |
| Fencing.NoTakeoverDuringCall | src/modules/provisioning/evolution-recovery.service.ts:239-281 | No `claim` of that row succeeds meanwhile, even if the caller has crashed. |
| Fencing.TakeoverEvicts | src/modules/provisioning/evolution-recovery.service.ts:239-281 | A successful claim evicts every earlier executor of the row. |
| Fencing.EvictedIsHarmless | src/modules/provisioning/evolution-provisioning.service.ts:380-395 | An evicted executor has no call under way, can start none, and its transactions leave the tables unchanged. |
| Fencing.StaysEvicted | src/modules/provisioning/evolution-recovery.service.ts:239-281 | Nothing ever gives an evicted executor its row back. |
| Fencing.FencedForever | src/modules/provisioning/evolution-recovery.service.ts:239-281 | From a takeover on, in every later state, all earlier executors are evicted. |
| Fencing.HistoryRowLife | src/modules/instance/instance.service.ts:107-264 | Over any history a row only moves forward in its state graph. |
| Fencing.SentAtMostOnce | src/modules/instance/instance.service.ts:122-138 | The creating POST of a row is started at most once, and never for a row that is or comes to be released. |
| Fencing.SentUntilResolved | src/modules/instance/instance.service.ts:122-263 | A sent row keeps its slot until it is committed with its webhook accepted if it asked for one, or failed after its session was gone during cleanup. |
| Fencing.GoneIsFinal | src/modules/provisioning/evolution-recovery.service.ts:136-237 | Once the session was gone during cleanup no creation for the row is under way or can start. |
| Fencing.RemovalIsOwn | src/modules/provisioning/evolution-recovery.service.ts:167-176 | Program order supplies what `removeConfirmed` does not check: an owner only removes the instance its own row recorded, gone and under cleanup. |
| Fencing.CommittedWithInstance | src/modules/provisioning/evolution-provisioning.service.ts:487-521 | A committed row has its own session recorded as an instance. |
| Relay.RelayForgetsEarlierHost | src/modules/webhook/relay-configuration.ts:20-61 | Redirecting a webhook to a second host leaves no trace of the first. |
| Relay.RelayedHeaders | src/modules/webhook/relay-configuration.ts:20-61 | The only relay token header is the host's own, whatever spelling the caller used, and all other headers pass unchanged. |
| Allocator.FirstFit | src/modules/provisioning/evolution-provisioning.service.ts:239-377 | Whatever others write between the pieces of the walk: the session lands on the first candidate not refused for want of room when it was visited, in legacy mode on the default host. |
| Allocator.UnavailableMeansAllRefused | src/modules/provisioning/evolution-provisioning.service.ts:239-377 | 503 is answered only after every candidate was refused so. |
| Allocator.BetterHostsPassedOver | src/modules/provisioning/evolution-provisioning.service.ts:209-216 | Every host that, once the session is placed, accepts the product at a smaller priority number, or at the same with a smaller id, had been tried and refused first. |
| Allocator.PayloadOfLastHost | src/modules/provisioning/evolution-provisioning.service.ts:239-290 | The payload overwritten per candidate depends on the last one only. |
| Allocator.StoredPayload | src/modules/provisioning/evolution-provisioning.service.ts:239-362 | Field by field, a placed row of a relayed product stores the hub's own address for its host, that host's stored token under the one header name and under no other spelling of it, the other headers, settings and secret as they were asked for, on unless switched off, and not yet applied; the row of any other product stores the request as it came. |
| Allocator.ClearedHasNoNamesake | src/modules/provisioning/evolution-provisioning.service.ts:162-199 | Once the opening of a request lets it pass, the product has neither an instance nor an open row of the name; if it throws, nothing was written. |
| Allocator.PrepareRequest | src/modules/provisioning/evolution-provisioning.service.ts:157-378 | Clear the name, check the mode, walk the candidates: the whole of `prepare`, with its refusals in order. |
| Allocator.Prepare | src/modules/provisioning/evolution-provisioning.service.ts:157-378 | The loop over candidates does what the walk above is proved to do. |
| Review.HostsAgree | src/modules/admin/evolutions/evolution-change-checks.ts:289-388 | The host as laid over for review is the host as apply writes it, up to its configuration counter. |
| Review.LinksAgree | src/modules/admin/evolutions/evolution-change-checks.ts:289-388 | The links laid over are the links apply writes, up to their counters. |
| Review.CountsAgree | src/modules/admin/evolutions/evolution-changes.service.ts:462-547 | Apply writes nothing the count of a host depends on. |
| Review.AliasesAgree | src/modules/provisioning/evolution-controls.ts:37-50 | Nor anything the alias check depends on. |
| Review.CapacityAdmits | src/modules/provisioning/evolution-provisioning.service.ts:100-155 | Admission in capacity mode, as an exact list of conditions. |
| Review.NoBlockers | src/modules/provisioning/evolution-controls.ts:156-203 | No blocker for a link, as the exact list of conditions the second copy of the predicate tests. |
| Review.AdmissionMatches | src/modules/provisioning/evolution-controls.ts:156-203 | A link is unblocked and not full in review exactly when admission succeeds after the writes, on an Evolution host without unattributed sessions. |
| Review.ReviewDelivers | src/modules/admin/evolutions/evolution-change-checks.ts:241-483 | If the review of a forward change is ready, its writes succeed and a new session of the product is admitted on some host at that instant. |
| Review.ReversalDelivers | src/modules/admin/evolutions/evolution-change-checks.ts:267-280 | For an unchanged snapshot: the review of a detachment is ready exactly when its transaction, which tests everything again, goes through; that of a restore exactly when the guarded switch of the mode (`setAllocation`), with that target, would go through, and then the unguarded write does what the switch would do. |
| Review.RestoreDelivers | src/modules/admin/evolutions/evolution-changes.service.ts:536-547 | After a ready review and its unguarded write, every session of the product is on its new default host, none is under way, and admission there depends on that host alone. |
| Deliveries.PendingDeliveries | src/modules/provisioning/evolution-reversal.ts:26-95 | The scan with its early exits says yes exactly when some undelivered event on the hosts may concern the product, or some of its batches there has not ended. |
| Deliveries.NothingPendingMeansNothingHeld | src/modules/provisioning/evolution-reversal.ts:26-95 | If it says no, no undelivered event of those hosts is bound to an instance of the product or waits for a row of it. |
| Deliveries.AwaitedExactly | src/modules/provisioning/evolution-reversal.ts:26-95 | What counts as pending, told from the stored rows: an undelivered event of the hosts whose instance, or else whose row, is the product's, or that can be about an instance of it or about none; and a batch of it not ended and not elsewhere. |
| ReviewEffects.ConfiguredKeeps | src/modules/admin/evolutions/evolution-changes.service.ts:462-547 | The writes of a forward change keep every invariant. |
| ReviewEffects.AppliedKeepsInv | src/modules/admin/evolutions/evolution-changes.service.ts:438-592 | Apply in all four purposes keeps every invariant, a restore as long as the guarded switch would be allowed. |
| ReviewEffects.OthersUnaffected | src/modules/admin/evolutions/evolution-change-checks.ts:251-267 | Every product outside the listed affected ones gets the same admission answer before and after. |
| ReviewRun.Readiness | src/modules/provisioning/evolution-controls.ts:156-203 | The list of blockers holds exactly the codes whose conditions hold. |
| ReviewRun.ReviewLink | src/modules/admin/evolutions/evolution-change-checks.ts:305-388 | Raises exactly the checks of one link, blocking only when it accepts, and tells whether it has room. |
| ReviewRun.ReviewLinks | src/modules/admin/evolutions/evolution-change-checks.ts:305-389 | Over all links, in whatever order they are walked. |
| ReviewRun.ReviewReversal | src/modules/admin/evolutions/evolution-change-checks.ts:267-280 | Exactly the checks of the two reversals, with the delivery scan over the hosts the product leaves. |
| ReviewRun.ReviewIdentities | src/modules/admin/evolutions/evolution-change-checks.ts:391-399 | Exactly the endpoint and alias checks of certified identities. |
| ReviewRun.ReviewLimits | src/modules/admin/evolutions/evolution-change-checks.ts:401-446 | Exactly the confirmation and readiness checks of edited limits. |
| ReviewRun.RequiredActions | src/modules/admin/evolutions/evolution-change-checks.ts:346-388 | Every blocking check asks for one action: confirm an own instance's webhook, use a test product where there is none, confirm a shared limit, or resolve the code. |
| ReviewRun.EvaluateChange | src/modules/admin/evolutions/evolution-change-checks.ts:241-483 | The whole review raises exactly the checks whose conditions hold, asks exactly for the actions of the blocking ones, and is ready exactly when none blocks. |
| ReviewRun.WriteLimits | src/modules/admin/evolutions/evolution-changes.service.ts:462-469 | The loop over limits writes each host once and no other. |
| ReviewRun.WriteIdentities | src/modules/admin/evolutions/evolution-changes.service.ts:470-484 | The loop over identities writes each host once and no other. |
| ReviewRun.WriteLinks | src/modules/admin/evolutions/evolution-changes.service.ts:485-515 | The upserts create missing links and edit the named fields of the others. |
| ReviewRun.WriteSingle | src/modules/admin/evolutions/evolution-changes.service.ts:516-535 | All other links of the product stop accepting and the destination starts. |
| ReviewRun.ApplyWrites | src/modules/admin/evolutions/evolution-changes.service.ts:462-547 | All loops together write exactly the configured state the agreement lemmas speak of. |
| ApplySteps.ConfiguredIsRun | src/modules/admin/evolutions/evolution-changes.service.ts:462-547 | The writes of a forward change are a run of host edits, link edits and one mode edit, so the theorems over runs cover them. |
| ApplySteps.ApplicationIsRun | src/modules/admin/evolutions/evolution-changes.service.ts:438-592 | So is every application, whatever its purpose, a restore as long as the guarded switch would be allowed. |
| ChangeSafety.StepRaisesRevisions | src/modules/admin/products/products.service.ts:147-190 | No step loses a product or takes its configuration revision back. |
| ChangeSafety.ApplicationRaises | src/modules/admin/evolutions/evolution-changes.service.ts:438-592 | Applying raises its product's revision by exactly one and leaves all other products alone. |
| ChangeSafety.ActKeeps | src/modules/admin/evolutions/evolution-changes.service.ts:150-874 | Every act keeps the invariants on changes, their index, leases, running applies and applications per revision. |
| ChangeSafety.ActMovesChange | src/modules/admin/evolutions/evolution-changes.service.ts:223-874 | No act loses a change or alters its draft, and a changed status comes with a higher revision. |
| ChangeSafety.CourseKeepsInv | src/modules/admin/evolutions/evolution-changes.service.ts:150-874 | The invariants hold over any course of acts. |
| ChangeSafety.CourseKeepsTables | src/modules/admin/evolutions/evolution-changes.service.ts:438-592 | So do the invariants of the shared tables: no change that is applied in a course breaks them, unguarded as the restore is. |
| ChangeSafety.FinalStatuses | src/modules/admin/evolutions/evolution-changes.service.ts:223-592 | `applied` and `cancelled` are never left, and every status change strictly raises the revision. |
| ChangeSafety.AppliedAtMostOnce | src/modules/admin/evolutions/evolution-changes.service.ts:438-592 | Of all drafts made from one product revision at most one is ever applied, and it is applied once. |
| ChangeSafety.ReapplyIsSafe | src/modules/admin/evolutions/evolution-changes.service.ts:438-460 | Applying an applied change answers it again and begins nothing. |
| ChangeSafety.AppliesWhatWasExpected | src/modules/admin/evolutions/evolution-changes.service.ts:99-149 | Apply only writes over the very product, host and link revisions the draft expected. |
| ChangeSafety.BecomesApplied | src/modules/admin/evolutions/evolution-changes.service.ts:548-580 | Whatever its status, an act makes a change applied exactly if it is the second half of its own apply within 15 seconds of the first, its review comes out ready and its writes succeed. |
| ChangeSafety.ExpiredBeforeApply | src/modules/admin/evolutions/evolution-changes.service.ts:438-460 | A change that expired, failed or was cancelled before its apply began is never applied. |
| ChangeSafety.AppliedInTime | src/modules/admin/evolutions/evolution-changes.service.ts:438-580 | No change is applied 15 seconds after its expiry or later. |
| ChangeSafety.NeverAppliedLate | src/modules/admin/evolutions/evolution-changes.service.ts:438-580 | Over any course, a change not applied 15 seconds after its expiry, whatever its status, never is. |
| ChangeSafety.ClosedCanBeCancelled | src/modules/admin/evolutions/evolution-changes.service.ts:353-379 | An expired or failed change becomes cancelled exactly when the request names its current revision. |
| ChangeSafety.SupersededWritesNothing | src/modules/admin/evolutions/evolution-changes.service.ts:648-668 | A preparer without its lease can neither publish, nor fail the change, nor renew. |
| ChangeSafety.SupersededBy | src/modules/admin/evolutions/evolution-changes.service.ts:600-630 | Another claim, and a cancellation, supersede the preparer that held the lease. |
| ChangeSafety.SupersededForever | src/modules/admin/evolutions/evolution-changes.service.ts:600-866 | Once superseded a preparer stays so in every later state. |
| ChangeCourse.ExpiryDoesNotStopApply | src/modules/admin/evolutions/evolution-changes.service.ts:438-592 | A whole course from an empty table: created, claimed, reviewed, its apply begun a millisecond before the expiry, expired, and applied all the same within the bound on the transaction. |
| ChangeService.Service.Create | src/modules/admin/evolutions/evolution-changes.service.ts:150-185 | The same request with the same content answers its earlier change; different content under the same id is a conflict. |
| ChangeService.Service.EndApply | src/modules/admin/evolutions/evolution-changes.service.ts:453-592 | Reviews again, writes and marks, or leaves tables and change as they were. |
| ChangeService.Service.Write | src/modules/admin/evolutions/evolution-changes.service.ts:462-547 | The writes of the four purposes, all or none. |
| Base64.EncodedLength | src/modules/media/prepared-media.ts:72-78 | The encoded length of a byte string, computable before encoding (RFC 4648 section 4). |
| Base64.SymbolsSplit | src/modules/media/prepared-media.ts:40-62 | Encoding splits after whole triples. |
| Base64.BytesSplit | src/modules/media/media-base64.ts:69-83 | Decoding splits after whole quads. |
| Base64.BytesOfSymbols | src/modules/media/media-base64.ts:69-83 | Decoding undoes encoding, for every byte string. |
| Base64.SymbolsOfQuads | src/modules/media/prepared-media.ts:40-72 | Encoding undoes decoding on whole quads. |
| Base64.CanonicalTail | src/modules/media/media-base64.ts:49-66 | Only the last incomplete quad can make a text non-canonical (RFC 4648 section 3.5). |
| Base64.SpellsOne | src/modules/media/media-base64.ts:8-67 | A text spells one byte string only. |
| Base64.AdmissibleMeans | src/modules/media/media-base64.ts:49-66 | A text spells some non-empty byte string, with full or no padding, exactly when its counts and its last quad pass the final checks. |
| Media.Conclude | src/modules/media/media-base64.ts:49-66 | The checks on the counters and the last four characters decide admissibility of the whole text. |
| Media.InspectBase64 | src/modules/media/media-base64.ts:19-67 | Accepts exactly the texts whose white-space-free form spells between 1 and `maxBytes` bytes, and returns that number, wherever the chunks cut; of a text with both faults it reports the one its chunks meet first. |
| Media.TakeQuads | src/modules/media/media-base64.ts:74-80 | Whole quads are decoded and the rest is carried. |
| Media.DecodeBase64 | src/modules/media/media-base64.ts:69-83 | The yielded blocks together are the bytes the text spells, wherever the chunks cut. |
| Media.Body | src/modules/media/prepared-media.ts:40-72 | However the file is cut, prefix, encoded file and suffix follow each other without loss. |
| Media.CompletedIsEncoded | src/modules/media/prepared-media.ts:40-72 | Re-encoding what a text spells gives the text back with its padding completed. |
| DataUri.MatchHeader | src/modules/media/media-base64.ts:19-29 | The header is accepted exactly when it fits the pattern, and then yields the one type it can have. |
| DataUri.InspectMedia | src/modules/media/media-base64.ts:8-67 | A data URI needs a fitting header of at most 1024 characters; its payload, or else the whole text, is accepted exactly as above. |
| DataUri.CharactersExactly | src/modules/media/media-base64.ts:19-29 | The characters of the pattern by their codes, and letters alike but for case. |
| DataUri.TailsAccepted | src/modules/media/media-base64.ts:19-29 | The mark of base64 ends a header alone, in capitals, and after any character set. |
| DataUri.PayloadExactly | src/modules/media/media-base64.ts:8-30 | A data URI begins with its scheme, and its payload after its first comma. |
| MediaBody.StreamsObject | src/modules/media/prepared-media.ts:29-42 | Prefix, streamed base64 and suffix are together the JSON text of the object whose last field is the media. |
| MediaBody.Send | src/modules/media/prepared-media.ts:21-82 | However the file is cut, the text sent is the JSON object of the payload with its defaults and the encoded file last, and `Content-Length` is the number of its UTF-8 bytes. |
| MediaBody.ForwardMedia | src/modules/media/prepared-media.ts:21-82 | Inspect, decode, send: an accepted text arrives in that object without white space and padded in full, under a length computed from the inspection. |
| MediaBody.DefaultedExactly | src/modules/media/prepared-media.ts:28-31 | A default replaces a value that is missing, null, false, zero or empty, and nothing else. |
| MediaBody.KeptExactly | src/modules/media/prepared-media.ts:33-40 | What is printed before the media is, in order, every property that has a value, but for the media field. |
| MediaBody.Utf8Exactly | src/modules/media/prepared-media.ts:69-72 | The bytes counted for a character are its shortest form in UTF-8 (RFC 3629 section 3). |
| JsonText.PrintInjective | src/modules/admin/evolutions/evolution-change-checks.ts:67-76 | Distinct printed trees have distinct texts: escapes, numbers and nesting are all told apart. |
| JsonText.EscapeExactly | src/modules/media/prepared-media.ts:33-41 | A quote, a backslash and a control character are written as their short escape, or else as their code in four lower-case hexadecimal digits; every other character stands for itself (RFC 8259 section 7). |
| CanonicalJson.CanonicalTextDecides | src/modules/admin/evolutions/evolution-change-checks.ts:67-76 | Two values have the same canonical text exactly when they are equal up to key order and undefined entries. |
| DraftText.ListsDecide | src/modules/admin/evolutions/evolution-change-checks.ts:77-96 | Lists sorted by id have the same meaning exactly when they put the same element under every id. |
| DraftText.ImpactsDecide | src/modules/admin/evolutions/evolution-change-checks.ts:86-94 | Two shared limits read the same exactly when their entries do and they name the same products, in any order. |
| DraftText.SharedDecides | src/modules/admin/evolutions/evolution-change-checks.ts:86-94 | Sorted, two lists of shared limits read the same exactly when each one of either stands in the other. |
| DraftText.DraftTextDecides | src/modules/admin/evolutions/evolution-change-checks.ts:77-96 | Two drafts have the same request text exactly when they differ in the order of their lists, product ids and keys alone, under any order for ids and keys and any other for product ids. |
| DraftText.ElementsCarryIds | src/modules/admin/evolutions/evolution-change-checks.ts:77-97 | Product ids, and updates that carry their host's id among any other fields, are elements the sorting can tell apart. |
| ProxyConfirmation.LocateProxyLeaf | src/adapters/evolution/evolution.proxy-confirmation.ts:49-74 | The search finds the first settings within two envelopes, or says absent or invalid. |
| ProxyConfirmation.WritePublicFields | src/adapters/evolution/evolution.proxy-confirmation.ts:143-161 | The public fields are the confirmed ones, a public field without confirmation is dropped, and all other fields stay the reply's own. |
| ProxyConfirmation.FoundExactly | src/adapters/evolution/evolution.proxy-confirmation.ts:49-74 | The search finds a set of fields exactly if it lies within at most two envelopes of this instance, is switched on or off, holds nothing else, and its fields have the types they may have. |
| ProxyConfirmation.ConfirmedExactly | src/adapters/evolution/evolution.proxy-confirmation.ts:92-113 | A read confirms exactly such settings, switched as sent, and if switched on of the host and protocol sent, with port and user name of the same text; other settings are divergent. |
| ProxyConfirmation.PasswordsGone | src/adapters/evolution/evolution.proxy-confirmation.ts:116-124 | No key `password` is left at any depth, in objects or arrays. |
| ProxyConfirmation.RebuiltIsFound | src/adapters/evolution/evolution.proxy-confirmation.ts:126-136 | Settings put back at the depth they were found at are found again there after cleaning. |
| ProxyConfirmation.PublicProxyConfirms | src/adapters/evolution/evolution.proxy-confirmation.ts:143-161 | From a confirmed read and a set reply that is not invalid comes an answer without passwords that classifies as confirmed again, at the reply's own depth if it had settings. |
| ProxyConfirmation.AbsentExactly | src/adapters/evolution/evolution.proxy-confirmation.ts:49-74 | The other answers of the search: nothing set exactly at a null proxy or empty fields within two envelopes or an empty body, unknown exactly at other fields without settings; all else is invalid. |
| ProxyConfirmation.RefusedExactly | src/adapters/evolution/evolution.proxy-confirmation.ts:143-149 | A set reply gives no public answer exactly if it speaks of another instance or has no known shape. |
| RelayEvents.ActKeeps | src/modules/queue/relay-ingress.service.ts:139-392 | Every act keeps bindings true to their instances, waiting events to their rows, and one job per event. |
| RelayEvents.OutsideKeeps | src/modules/provisioning/evolution-provisioning.service.ts:431-467 | So does every provisioning step, import and removal around them. |
| RelayEvents.ForGood | src/modules/queue/relay-ingress.service.ts:276-317 | A binding, a job and a delivery are never undone. |
| RelayEvents.BoundToItsRow | src/modules/queue/relay-ingress.service.ts:319-392 | A waiting event is only ever bound to the instance its own provisioning row recorded, under the row's product, host, name and remote id, never to a later namesake. |
| RelayEvents.JobsAreOwn | src/modules/queue/relay-ingress.service.ts:294-317 | A job carries its event's binding, which is an instance's own product, host and name, and the very host, name and remote id that the event gave; each event has at most one job. |
| RelayEvents.JobStaleIff | src/modules/queue/relay-ingress.service.ts:246-274 | A queued job fails validation exactly when its instance is gone or its host no longer speaks the adapter the event arrived by. |
| RelayEvents.Ingress.Accept | src/modules/queue/relay-ingress.service.ts:139-228 | An arrival is bound exactly to the one instance pointed at that agrees in every field given and that no open row pointed at contradicts; it waits exactly for the one open row if no instance is pointed at; and is retained otherwise. |
| RelayEvents.Ingress.RecoverWaiting | src/modules/queue/relay-ingress.service.ts:319-392 | A waiting event follows its row as it was read: bound once recorded, retained once the row ended otherwise than committed or changed identity, left alone until then. |
| RelayEvents.ArrivalExactly | src/modules/queue/relay-ingress.service.ts:156-228 | So does the stored event itself, told over the tables as they were read, with what is retained kept under its host if that is the only one. |
| RelayEvents.RecoveredExactly | src/modules/queue/relay-ingress.service.ts:319-392 | A waiting event is bound exactly once its live row recorded an instance of the same host and id, retained exactly if the row is gone, ended otherwise than committed or recorded another, and waits otherwise. |
| RelayEvents.ValidExactly | src/modules/queue/relay-ingress.service.ts:246-274 | Over any tables, a job is valid exactly if its instance is there and still the one bound, linked, on a host of the adapter it arrived by. |
| RelayHistory.AdapterEditStalesJob | src/modules/admin/vps/vps-provider.service.ts:108-160 | A course in which an event is queued and then its host is given another adapter: the job is stale though its instance is there. |
| RelayHistory.ActionRemovesOwn | src/modules/provisioning/evolution-recovery.service.ts:167-176 | Whatever an executor removes while it owns its row is the instance the row recorded. |
| RelayHistory.JointKeeps | src/modules/queue/relay-ingress.service.ts:139-392 | Executors and relay acting on the same tables keep both invariants, with nothing assumed of removals. |
| RelayHistory.JobsOfHistory | src/modules/queue/relay-ingress.service.ts:246-274 | In every joint history from tables without rows and instances, jobs go stale for those two reasons only. |
| BatchBarrier.RunKeeps | src/modules/queue/batch.worker.ts:51-187 | Every counter increment and read, every write, the expiry of the total and every rerun of a job keep the tallies, and the counts taken distinct. |
| BatchBarrier.AtMostOneWrite | src/modules/queue/batch.worker.ts:166-186 | However jobs interleave and however often they are run again, the batch row is written at most once, and never before as many outcomes were recorded as there are messages. |
| BatchBarrier.OneFinaliser | src/modules/queue/batch.worker.ts:166-186 | While every job has run once, a written row has counts that add up to the batch, after all jobs recorded; and when all are over it has been written, unless the total had expired when the last one looked. |
| BatchBarrier.RerunMiscounts | src/modules/queue/batch.worker.ts:51-87 | One job run again is enough for a row that counts one outcome too many, in a batch of any size. |
| BatchBarrier.CountsExactIff | src/modules/queue/batch.worker.ts:166-186 | The written counts always add up to the batch exactly when no job may run again, or there is none. |
| BatchBarrier.ExpiryLosesTheBatch | src/modules/queue/batch.producer.ts:99-103 | If the total expires first, all jobs end and the batch is never marked as completed. |
| BatchBarrier.AlwaysCompletedIff | src/modules/queue/batch.worker.ts:166-186 | With every job run once, a batch is sure to be completed exactly when it has a message and its total cannot expire. |
| Outcomes.AdmittedExactly | src/modules/provisioning/evolution-provisioning.service.ts:100-155 | Admission succeeds exactly under a list of conditions on the tables alone: the policy, the link, one verified installation, known of late, whose names leave room. It adds at most the link of a legacy default. |
| Outcomes.RefusalExactly | src/modules/provisioning/evolution-provisioning.service.ts:100-155 | A refusal is 503, which lets the walk go on, except for an inactive product, a legacy one without default or on an inactive default, and another adapter. |
| Outcomes.ReservedExactly | src/modules/provisioning/evolution-provisioning.service.ts:292-362 | A reservation succeeds exactly if the host may take the session, nothing the preflight saw has changed, time is left and no instance, open row or session shown has the name; each failure has its own status. |
| Outcomes.ReservedRow | src/modules/provisioning/evolution-provisioning.service.ts:337-357 | What is reserved is the request, leased until its deadline and five seconds more. |
| Outcomes.RefusedAs | src/modules/provisioning/evolution-provisioning.service.ts:380-538 | What a step of a ticket is told when it is refused: not found where product, host or row is gone, a conflict where the row is another's or in another state, an internal error where its request is gone or an instance is in the way. |
| Outcomes.AuthorisedExactly | src/modules/provisioning/evolution-provisioning.service.ts:407-429 | A creation is authorised exactly for the holder of a row still reserved under a live lease, in time, on a host that may hold it. |
| Outcomes.OwnedExactly | src/modules/provisioning/evolution-provisioning.service.ts:380-405 | A row may be worked on exactly by its holder under a live lease; others are told a conflict, or that it is gone if it is. |
| Outcomes.RecordedExactly | src/modules/provisioning/evolution-provisioning.service.ts:431-467 | A session is recorded exactly by the holder of a sent row where no instance is in its way; a row that has one is answered with it and nothing is written. |
| Outcomes.NotedExactly | src/modules/provisioning/evolution-provisioning.service.ts:469-538 | An accepted webhook and the start of a cleanup are noted exactly by the holder, and nothing else of the row changes. |
| Outcomes.CommittedExactly | src/modules/provisioning/evolution-provisioning.service.ts:487-521 | A row is committed exactly by its holder, sent, recorded and with its webhook applied; the first commitment in capacity mode is dated and later ones leave the date. |
| Outcomes.AbandonedExactly | src/modules/provisioning/evolution-provisioning.service.ts:552-591 | Abandoning releases a row never sent and leaves a sent one ownerless until its retry comes due. |
| Outcomes.RemovedExactly | src/modules/provisioning/evolution-provisioning.service.ts:593-641 | A removal takes an instance away exactly where it is the product's own on that host and the caller holds its row, or no open row recorded it. |
| Outcomes.ClaimedExactly | src/modules/provisioning/evolution-recovery.service.ts:239-281 | A claim takes a row over exactly when it is open, was sent and its lease is over; one never sent is released; nothing else happens. |
| Outcomes.ImportedExactly | src/prisma/evolution-links.ts:56-142 | An import creates exactly where nothing clashes, and recognises its session exactly where the one instance that clashes is that session of that product on that host. |
| Outcomes.StartedExactly | src/modules/provisioning/evolution-inventory.service.ts:77-109 | A collection begins exactly where none runs under a live lease, at the version and destination of that moment. |
| Outcomes.PublishedExactly | src/modules/provisioning/evolution-inventory.service.ts:124-145 | A publication goes through exactly for the owner of the running collection, in time, at the version and destination it began with. |
| Outcomes.ReadyExactly | src/modules/provisioning/evolution-inventory.service.ts:146-222 | It is ready exactly if every session shown is accounted for: all instances of its name on the host may be it and there is one, or there is none and an open row of host and name recorded its id or holds a generated secret it shows. It reports absent exactly the instances no session can be. |
| Outcomes.TakenExactly | src/modules/provisioning/evolution-inventory.service.ts:246-295 | A name is taken on a host exactly by a session shown there, an instance that the current report does not call gone, or an open row. |
| Outcomes.DetachedExactly | src/modules/provisioning/evolution-reversal.ts:137-191 | A host is detached exactly if it is not the product's default, has none of its instances and no outstanding row of it, and no event is on its way; the link goes and ended rows let it go. |
| Outcomes.RestoredExactly | src/modules/provisioning/evolution-reversal.ts:97-135 | Legacy mode is restored exactly if the destination is usable, linked and of the adapter, all instances of the product are there, and nothing is outstanding or on its way. |
| Outcomes.EditedExactly | src/modules/admin/products/products.service.ts:147-190 | An edit of a product names a host there is, keeps mode and first use, counts as an edit, and links a new default host. |
| Outcomes.ModeChangesOnlySo | src/modules/provisioning/evolution-reversal.ts:97-135 | Of all steps only a switch of mode and the restore of legacy mode change a product's mode. |
| Outcomes.SwitchedExactly | src/modules/admin/evolutions/evolution-changes.service.ts:485-515 | Links are put between what there is, as they are given; a switch of mode counts as an edit and changes no more. |
| Placement.PreflightExactly | src/modules/provisioning/evolution-provisioning.service.ts:218-247 | A counted host is taken as it stands if it is known of late and collected again if not; of any other the remote is asked for the name once, and a name it shows, or no answer, is refused with its own status. |
| Placement.RefreshExactly | src/modules/provisioning/evolution-inventory.service.ts:74-245 | Collecting again answers exactly if it could begin, the remote answered and in time the collection was still its own: then with the host as published just now and exactly the sessions shown. Otherwise nothing is published and no collection of its own is left running. |
| Placement.VisitExactly | src/modules/provisioning/evolution-provisioning.service.ts:218-377 | A visit places the session exactly if the request is in time before and after the remote is asked, the host is there and active, looking at it gave an answer, and at the moment of the reservation the host may take it, nothing seen has changed and the name is unused. |
| Placement.TokensStay | src/modules/webhook/relay-configuration.ts:20-61 | A callback token once stored stays, wherever the walk goes. |
| Placement.ClearedExactly | src/modules/provisioning/evolution-provisioning.service.ts:162-199 | A request may go on exactly if its product is active, has no open row of the name, and either no instance of it or one that the remote, asked in time, no longer shows and no open row recorded; a session still shown is a conflict. |
| Placement.NothingToVisit | src/modules/provisioning/evolution-provisioning.service.ts:200-208 | Without a default host, or with allocation switched off, no candidate is visited and the answer is the one for that. |
| Placement.NotClearedAs | src/modules/provisioning/evolution-provisioning.service.ts:162-199 | And what such a request is told otherwise, in the source's order. |
| Progress.TakesOverExactly | src/modules/provisioning/evolution-recovery.service.ts:239-281 | In every reachable state a recovery pass with time left takes a row over exactly when it is open, sent and its lease over; it then owns it until its deadline and the margin. An expired reservation is released. |
| Progress.ReturnedExactly | src/modules/instance/instance.service.ts:122-263 | A process believes only what the remote said: created or found under the id that came with the answer, found only if proven its own, gone only if deleted or missing where it was to be cleaned up; in every other case it gives its row up. |
| Progress.SagaCommits | src/modules/instance/instance.service.ts:107-264 | A creation that is admitted, reserved in time and then only meets calls that succeed is sent once and committed, with its instance recorded under the id the remote gave. |
| Progress.RefusedSagaCleans | src/modules/instance/instance.service.ts:160-264 | The same creation, its webhook refused and its session then deleted, ends failed: session, instance and name are gone. |
| Progress.RecoveryCommits | src/modules/provisioning/evolution-recovery.service.ts:178-237 | A sent row whose session recovery finds, and can tell to be its own, can be committed with that session. |
| Progress.RecoveryCleans | src/modules/provisioning/evolution-recovery.service.ts:167-199 | A recorded row under cleanup can be ended as failed, its instance and name gone, whether the session is still there or not. |
| Progress.ContinuesExactly | src/modules/instance/instance.service.ts:107-264 | A transaction that goes through takes its process on and one that is refused makes it give its row up; only in a creation a webhook that cannot be noted leads to cleanup. |
| Progress.CrashedIsSilent | src/modules/provisioning/evolution-recovery.service.ts:136-237 | A crashed process writes nothing and calls no one; it can only still hear of a call it made. |
| Progress.CallTimeoutExactly | src/common/qr-request-context.ts:65-73 | A remote call gets the time it asks for, but ends a second before the deadline; without that second there is none. |
| Progress.GivesUp | src/modules/provisioning/evolution-provisioning.service.ts:552-591 | At its end a process gives up the row it holds: unsent it is released, sent it waits, ownerless, for recovery. |
| Progress.CallsMadeFrom | src/modules/instance/instance.service.ts:107-264 | Each remote call is made from one place only: a session is created once authorised, and deleted under cleanup alone. |
| ReviewMeaning.SharedLimitAsked | src/modules/admin/evolutions/evolution-change-checks.ts:407-431 | A confirmation is asked for exactly if a drafted limit differs from the host's, two products or more use the host (by link, by default, or this one by draft), and the draft does not confirm the host's revision, the new limit and exactly those products. |
| ReviewMeaning.SharedLimitConfirmed | src/modules/admin/evolutions/evolution-change-checks.ts:407-431 | So a ready forward review that changes the limit of a host in use by two products names all of them. |
| ReviewMeaning.ReadyExactly | src/modules/admin/evolutions/evolution-change-checks.ts:241-483 | A forward review is ready exactly if the draft is against the current configuration and a list of conditions on the tables holds: the setup, each link, each identity, each limit, and one link with room. |
| ReviewMeaning.VacantExactly | src/modules/admin/evolutions/evolution-change-checks.ts:305-388 | A link has room exactly under a list of conditions on the host as drafted and the names taken there. |
| ReviewMeaning.BlockersExactly | src/modules/provisioning/evolution-controls.ts:156-203 | A host has no blocker exactly under its list of conditions. |
| ReviewMeaning.HostCodes | src/modules/provisioning/evolution-controls.ts:156-203 | Each code of a host is raised exactly under its own condition, told over the tables. |
| ReviewMeaning.ReversalCodes | src/modules/provisioning/evolution-reversal.ts:7-95 | Each code of a detachment and of a restore is raised exactly under its own condition. |
| ReviewMeaning.ActionsNamed | src/modules/admin/evolutions/evolution-change-checks.ts:346-388 | Which action each blocking check asks for, told from the check and the product's instances alone. |
| ReviewMeaning.CurrentExactly | src/modules/admin/evolutions/evolution-change-checks.ts:98-203 | A snapshot is current exactly if product, links and hosts the draft speaks of have the revisions and verdicts it was taken at. |
| ReviewMeaning.WrittenAsDrafted | src/modules/admin/evolutions/evolution-changes.service.ts:462-547 | After a configuration is written every link and host reads as the draft says where it speaks of it, and as before where it does not. |
| ChangeMoves.StatusMovesExactly | src/modules/admin/evolutions/evolution-changes.service.ts:223-866 | Every status is reached exactly so: running by a claim, ready or action required by a stored review as it turned out, queued again by a confirmation, expired when time is up, failed, cancelled and applied each by its own act; nothing else changes a status. |
| ChangeMoves.LeaseAndReportExactly | src/modules/admin/evolutions/evolution-changes.service.ts:594-866 | The preparing lease is given by a claim, prolonged by its own preparer, ends with the status, and never outlasts the execution deadline; a report is stored exactly by a review. |
| ChangeMoves.CurrentExactly | src/modules/admin/evolutions/evolution-changes.service.ts:99-149 | A draft is accepted exactly if it is against the current revisions of the product, its links and its hosts. |
| ChangeMoves.CreatedExactly | src/modules/admin/evolutions/evolution-changes.service.ts:150-185 | A new request makes a change exactly if its draft is; a request made before is answered with the change it made if it says the same. |
| ChangeMoves.BegunExactly | src/modules/admin/evolutions/evolution-changes.service.ts:438-461 | Apply begins exactly for a ready change of the product, at the revision named, before it expires. |
| ChangeMoves.CancelledExactly | src/modules/admin/evolutions/evolution-changes.service.ts:353-379 | A cancellation goes through exactly for a change of the product at its revision that is neither applied nor cancelled; a cancelled one is answered again at any revision. |
| ChangeMoves.RevisionsMoveByOne | src/modules/admin/evolutions/evolution-changes.service.ts:223-866 | Every act that alters a change raises its revision by one, but for the renewal of a lease. |
| ChangeMoves.NotAppliedAs | src/modules/admin/evolutions/evolution-changes.service.ts:438-593 | An apply that does not go through releases its lock: too late it is rolled back, in time it is a conflict. |

## Left out

- PrepareRequest: the reads that open a request and the removal they may lead to are one moment; others come between the pieces of the walk that follows.
- StoredPayload, TokensStay: others are taken not to change a host's callback token once it is stored; no code replaces one.
- SagaCommits, RefusedSagaCleans, RecoveryCommits, RecoveryCleans: some history leads there, with nothing else in between; that calls succeed, and that a scanner comes by, is not promised.
- ReviewDelivers: the admission is the one at the instant of the writes; the clock and the inventory may make it fail later.
- EvaluateChange: the two facts read from the database's catalogue and from the table of confirmations (constraints consolidated, writers confirmed) are given; the prose of checks and actions is not modelled.
- ApplicationIsRun, AppliedKeepsInv: for a restore they ask that the guarded switch be allowed, which a ready review gives (`Review.ReversalDelivers`), since apply itself writes it unguarded.
- CanonicalTextDecides: numbers are integers and strings hold no lone surrogates.
- Send: numbers are integers, and the properties come in the order in which the payload lists them.
- JobStaleIff: an instance's active flag is not a column, since nothing updates an instance once it is created.
- AdapterEditStalesJob: the edit of a host is any edit; the source refuses some of them, of guarded hosts, and this one is none (`Guarded`).
- BecomesApplied: the work state of a callback check, and the diagnostics an applied change is left with, are not modelled; they decide nothing here.
- Framework wiring, request schemas, Swagger, HTTP filters, logging, message texts, activity records.
- Cryptography, token generation, URL parsing (a URL comes with its canonical endpoint), DNS, streams, temporary files, timers.
- `createLinkedInstance`, which nothing calls on these paths; creation and deletion of hosts and products; `setAllocation`'s own view of readiness.
- The pending queue of inventory requests (`request`), scheduling of scans, the recovery scanner's order.
- Instance columns other than identity: hub token, status, display fields.
- The copy of the webhook kept inside the request body, and `withoutRelayToken`.
- In change control: the merging of earlier remote errors into a reassessment, and the order in which waiting changes are picked.
- In relay: HTTP delivery, the foreign key on the event's instance, legacy jobs.
- `listInstances`, resolver cache, health checks, dashboards, users, rate limits: only easy members compared with the above.
