# Open Reachout: a verified model

A Dafny model of the outreach engine's hard core and proofs about it. Every source file of the
engine that is modelled in depth has its own module, in the form the engine gives it: handlers,
queues and stores are classes whose methods change their state and are proved against
specification functions; text rewriting is functions and lemmas.

## The send path

The claim-and-deliver transaction is modelled twice, and the two agree with one ledger.

* `Ledger` is the specification: the committed history as a sequence of atomic events, each with
  the condition its rows meet and its whole effect on the tables of `Tables`.
* `Gatekeeper` is the sequential code, a class with the store's gates, `claim` in its pinned order
  and `deliver` with its rollbacks. Its contracts say which ledger event each ending commits.
* `Interleaving` is the concurrent protocol: transactions advance statement by statement, with
  private writes, row locks from `FOR UPDATE` and `UPDATE`, unlocked gate reads, rollback or crash
  at any point, and any number of redelivered jobs. `Simulation` and `Runs` prove that every run
  commits a valid ledger history.
* `Endings` tells gates, dispatches and deletions by the rows alone; the handler's contract is stated
  in its terms, and `Undisturbed` proves that a transaction of the protocol which nobody disturbs
  ends in the same way.
* `Budgets`, `Sequences` and `Stops` prove the promises on ledger histories, and so on all runs:
  conservation and caps, at-most-once dispatch, one active sequence, spacing and pacing, halt and
  deletion. `Chronicle` adds commit times and what the provider was told; `Scenarios` shows that a
  draft whose gates pass can be delivered, and constructs the runs behind the failures named below.
  `Desk` holds the transactions that set halts, suppressions and deletions, and connects
  deletions with address aliases.
* `JobQueue` holds the lease queue and its life under crashes and stale reports.

## The other modules

* `Sentiment`: the reply score over `real`, with the decay given by b > 0 and b^20 = 1/2.
* `Discovery`, `Proposals`, `Rebalance`: the Wilson bound, with any function that is a square root,
  the proposal book with its cap moves, and the scan that files into it.
* `SchemaClean`, `SchemaMeaning`: the schema rewriting and what it does to the accepted values.
* `Canonical`, `Attribution`, `Envelope`, `Variables`: address normal form, link tokens, the
  untrusted envelope, prompt resolution.
* `Nppes`, `Events`, `EntityKeys`: cursor paging, event ingestion, entity resolution.

## Where the code differs from what its documentation says

* A refusal releases its touch without asking for its status, so an overlapping duplicate delivery
  can turn `dispatched` into `released` (`Stops.RefusalOverwritesDispatch` from any such world,
  `Scenarios.DuplicateOverwritesSample` for a whole run); the mail was still sent once.
* Halt, suppression and confidence gates read without a lock. A claim already past its halt gate
  commits although a halt has committed meanwhile (`Stops.HaltBinds`,
  `Scenarios.ClaimCommitsAfterHalt`). A deletion updates the touches and entities of its people, so
  it waits for their claimed touches and for contacts past the frequency gate
  (`Stops.DeletionWaits`); replies take no entity row, and one past its confidence gate is claimed
  and commits behind the deletion (`Stops.ForgetBindsExactly`,
  `Stops.PastConfidenceDeletionStopsNothing`, `Scenarios.ReplyCommitsAfterDeletion`). Suppression
  rows, unlike tombstones, are asked again by the trigger at the claim
  (`Stops.SuppressionStopsClaim`).
* A compose job that runs again drafts its step anew, and both drafts may go out
  (`Sequences.RerunDraftsAgain`, `Sequences.SecondDraftMayPass`); otherwise each step goes out once.
* An INTERNAL refusal after the budget gate leaves the budgets charged; only the rollback in
  `deliver` undoes it. A CONFIDENCE refusal keeps its mailbox slot.
* `touches_12mo` is never decayed: the annual ceiling is one over the entity's life. Human tasks
  raise it without asking for the cap, and their resolution plans no next step.
* Reports to the queue are not fenced by the lease (`JobQueue.StaleReportRevivesDone`).
* The throttle is documented as never un-throttling itself, but lifts a cap of zero to one, even
  after a pause of the same month (`Sentiment.PauseThenThrottleReopens`).
* Automatic review is documented as never raising totals; it does when a source does not cover its
  shift (`Proposals.ReviewCanRaiseTotal`; `Proposals.ReviewRaisesTotal` is the exact condition).
* The Wilson bound raises an error once replies outnumber contacts, and with it the whole scan
  (`Discovery.ScanFailsExactly`).
* A discover job's key is the cohort and the cursor, for good: a second sweep of a cohort stops
  after its first page (`Nppes.LaterSweepIsOnePage`).
* The schema rewriting treats property names like keywords: properties called `title`, `default` or
  `additionalProperties` vanish, ones called like an exclusive bound are renamed, and a reference
  inside such a one survives (`SchemaClean.ReferenceSurvives`).
* The envelope escapes its content only: a variable's slot name or the identifier could carry a
  close tag (`Envelope.OnlyItsOwnTag`).
* The canonical form is documented as stripping a single plus suffix; the code strips everything
  from the first plus sign.
* The error for an unknown subject in `forget` can never be raised: a request always names an
  address or an entity.

## Model

| member | source | states |
|---|---|---|
| Runs.EveryRunIsAHistory | src/open_reachout/core/sendpath.py:244-326 | at every point of every interleaving of deliver transactions (statement by statement, with rollbacks, crashes and other committing transactions) the committed tables are exactly the outcome of a valid history of atomic events |
| Runs.RunsAreSafe | src/open_reachout/core/store_pg.py:102-147 | of every run: a counter moved by exactly its committed claims, stays within a cap nobody rewrites, each touch is dispatched at most once, and an entity's cold and follow-up claims never exceed the annual cap |
| Runs.SendingIsExclusive | src/open_reachout/core/sendpath.py:293-297 | no two open transactions are past the claim for the same touch, and while one is, the committed status is still drafted |
| Runs.NoSendAfterDispatch | src/open_reachout/core/sendpath.py:246-250 | once a touch's dispatch has committed, the provider is never told about it again |
| Runs.StepKeeps | src/open_reachout/core/sendpath.py:244-326 | every step of every transaction keeps the invariant that relates uncommitted writes, row locks, gates passed and committed tables |
| Runs.FinishIsEvent | src/open_reachout/core/sendpath.py:269-324 | a committing transaction's merged rows are one ledger event whose conditions hold on the rows at commit |
| Simulation.StatementKeeps | src/open_reachout/core/gatekeeper.py:107-189 | each statement of claim and dispatch keeps what the transaction knows of its rows |
| Simulation.OthersKeep | src/open_reachout/core/store_pg.py:58-79 | a commit elsewhere that leaves the locked rows alone leaves everything a transaction knows true |
| Simulation.Compensated | src/open_reachout/core/store_pg.py:123-137 | releasing the budgets inside the transaction returns both month counters to their committed values exactly |
| Simulation.CommitIsDispatch | src/open_reachout/core/sendpath.py:293-324 | all uncommitted writes of a successful delivery together are the one atomic dispatch |
| Simulation.CommitPassedGates | src/open_reachout/core/gatekeeper.py:115-173 | a transaction that commits a dispatch had passed the halt, suppression and confidence gates, in that order, on states committed since it began |
| Simulation.RefusalIsRelease | src/open_reachout/core/sendpath.py:270-290 | a terminal refusal that commits releases the touch, keeps a mailbox slot it had taken and nothing else |
| Interleaving.MergeTouchesOnlyHeldRows | src/open_reachout/core/store_pg.py:102-121 | a commit changes no row outside the ones its transaction has locked |
| Ledger.StepAt | src/open_reachout/core/sendpath.py:269-324 | each committed event met its condition on the tables just before it, and moved them |
| Ledger.HistoryContinues | src/open_reachout/core/sendpath.py:75-93 | touches, prospects and compose jobs are never deleted, their identity is never rewritten, tombstones are never removed |
| Ledger.SequencesStayValid | src/open_reachout/core/config.py:182-193 | whatever each worker was configured with, every dispatch of a history was planned by a validated sequence: a next step is one of at most three follow-ups, after at least three days |
| Tables.PlanIsInRange | src/open_reachout/core/sendpath.py:329-353 | with a validated sequence the gap list is never indexed out of range, and every planned step is one of at most three follow-ups after a gap of at least three days |
| Budgets.CountersAreConserved | src/open_reachout/core/store_pg.py:102-147 | after any history a budget counter has grown by exactly the number of events charged to it: claims for the months; claims and confidence refusals for the mailbox day |
| Budgets.BudgetHolds | src/open_reachout/core/store_pg.py:107-121 | with a fixed cap, used never exceeds it, and no more claims commit than there was room for |
| Budgets.GrowsOnlyBelowCap | src/open_reachout/core/store_pg.py:107-116 | even under cap changes a counter grows only from below its cap |
| Budgets.TenantIsSumOfCohorts | src/open_reachout/core/store_pg.py:103-121 | a tenant's month grows by exactly the sum over its cohorts' months |
| Budgets.ClaimsNeverExceedAnnualCap | src/open_reachout/core/store_pg.py:73-74 | an entity's touch count is its earlier count plus its claims plus its done human tasks, and its claims, on top of the earlier count, never exceed the annual cap over its whole life |
| Budgets.TrialsCountDispatches | src/open_reachout/core/sendpath.py:298-303 | a variant's trials are exactly its committed dispatches |
| Budgets.DispatchedAtMostOnce | src/open_reachout/core/sendpath.py:246-252 | in every history, whatever is redelivered, each touch is dispatched at most once, and then it is past any further claim |
| Sequences.OneActiveSequence | src/open_reachout/core/store_pg.py:71-72 | from a claim for a prospect until its own sequence ends, every claim on that entity is a follow-up of that prospect |
| Sequences.FollowsOwner | src/open_reachout/core/store_pg.py:82-99 | an owned entity admits only its owner's follow-ups |
| Sequences.OpenersKeepTheirDistance | src/open_reachout/core/store_pg.py:75-78 | an opener goes out only 90 days after the contact before it on that entity, e-mail or human task |
| Sequences.OpenersKeepTheirDistanceToAll | src/open_reachout/core/store_pg.py:75-78 | whatever contacts lie between, an opener keeps 90 days to every earlier contact, less the time by which an overlapping transaction put the last contact back |
| Sequences.JobHasPlanner | src/open_reachout/core/sendpath.py:348-353 | a compose job stems from the first dispatch of the step before it and carries that dispatch's due time |
| Sequences.FollowupsKeepTheGap | src/open_reachout/core/sendpath.py:344-353 | every follow-up dispatch comes at least its configured gap, never under three days, after the first dispatch of the step before it, and is step three at most |
| Sequences.TouchHasDraft | src/open_reachout/core/sendpath.py:53-93 | every touch in the table stems from one drafting or parking event with the same content identity |
| Sequences.RepeatedStepMeansRepeatedDraft | src/open_reachout/core/sendpath.py:53-53 | two dispatches always stem from two different drafting events |
| Sequences.OncePerStep | src/open_reachout/core/prospecting.py:348-383 | when no compose job is carried out twice, each follow-up step is dispatched at most once per prospect |
| Sequences.AtMostThreeFollowups | src/open_reachout/core/config.py:173-193 | and a prospect receives at most three follow-ups in all |
| Sequences.RerunDraftsAgain | src/open_reachout/core/sendpath.py:53-93 | a compose job that runs again may draft its step anew, under a fresh touch |
| Sequences.SecondDraftMayPass | src/open_reachout/core/store_pg.py:82-99 | and both drafts may pass the continuation gate, unless the first ended the sequence or reached the ceiling |
| Sequences.NeverTwice | src/open_reachout/core/sendpath.py:246-252 | two dispatches of one history are of different touches |
| Stops.HaltBinds | src/open_reachout/core/control.py:23-45 | from a halt until that scope is resumed, the only claims that still commit had evaluated their halt gate before the halt committed |
| Stops.ResumeIsHuman | src/open_reachout/core/control.py:47-54 | a halt ends only by a resume of that scope by an operator |
| Stops.PastTheGateNothingStops | src/open_reachout/core/gatekeeper.py:115-118 | past its halt gate a transaction runs exactly as if no flag were set: the gate takes no lock |
| Stops.DeletionWaits | src/open_reachout/core/forget.py:89-141 | a deletion waits for the touch and entity rows that deliveries hold: what commits after it for one of its people was claimed after it, and a contact passed its frequency and confidence gates after it, too |
| Stops.ForgetBinds | src/open_reachout/core/forget.py:75-141 | after a deletion that names an address, every claim on it that still commits had been screened before the deletion; for one of the deleted people it came after it, and so did a contact's frequency gate |
| Stops.ForgetBindsExactly | src/open_reachout/core/store_pg.py:194-207 | a contact with a deleted person, and whoever else passes the confidence gate behind the deletion, must meet there a verified prospect of the tenant with the address: one the deletion left out, or one an enrichment in between gave it to |
| Stops.ConfidenceRefusesDeleted | src/open_reachout/core/store_pg.py:194-207 | a deletion that covers every holder of the address has the confidence gate refuse |
| Stops.PastConfidenceDeletionStopsNothing | src/open_reachout/core/sendpath.py:293-324 | a deletion that can commit while a delivery is past its confidence gate, every row it updates being free, leaves each statement of that delivery as it is without the deletion |
| Stops.SuppressionStopsClaim | src/open_reachout/db/schema.sql:193-211 | whichever gates were passed before, at the moment of a claim that commits every suppression of its prospect's address, in whatever scope, had an expiry that was over |
| Stops.SuppressedBeforeClaimStops | src/open_reachout/db/schema.sql:193-211 | a suppression that stands from some point on, without expiry or with one beyond the transaction's clock, lets only claims commit that were made before it |
| Stops.ForgetNamesEveryAddress | src/open_reachout/core/forget.py:62-73 | every address the deleted entities' prospects held is tombstoned and scrubbed |
| Stops.RefusalOverwritesDispatch | src/open_reachout/core/sendpath.py:270-277 | in any world of any run, a transaction that stands refused on a dispatched touch can run and commit its release, which overwrites the dispatch: the release is not guarded |
| Stops.OverwriteNeedsOverlap | src/open_reachout/core/sendpath.py:246-252 | a release that follows a touch's dispatch comes only from a transaction that began before that dispatch committed |
| Desk.Desk.Halt | src/open_reachout/core/control.py:23-45 | the new tables are those of the halt event |
| Desk.Desk.Resume | src/open_reachout/core/control.py:47-64 | refused exactly for actors who are not operators; otherwise the scope's flag is gone, and the answer says whether there was one |
| Desk.Desk.HaltedScopes | src/open_reachout/core/control.py:67-72 | non-empty exactly when the tenant is halted |
| Desk.Desk.Suppress | src/open_reachout/core/suppression.py:21-55 | stores the canonical address with its scope, overwriting an earlier expiry; refuses unreadable addresses |
| Desk.Desk.ScreenAtIngest | src/open_reachout/core/suppression.py:58-83 | passes exactly the readable addresses whose form is no tombstone and has no row, global or the tenant's, that is without expiry or expires later |
| Desk.Desk.Forget | src/open_reachout/core/forget.py:34-146 | collects the request's entities and every address tied to them, leaves exactly the tables of that deletion event, drops keys, names and texts, marks the entities forgotten, files a receipt and asks the provider |
| Desk.RequestExactly | src/open_reachout/core/forget.py:36-73 | the entities of a request are exactly those it names: one entity, or the holders of the address and its key's owner; the addresses are exactly the named one and those of these entities' prospects |
| Desk.PeopleLeft | src/open_reachout/core/forget.py:133-141 | the deleted entities keep a row without a name and marked forgotten; nobody else's changes |
| Desk.DeletedTextsAreGone | src/open_reachout/core/forget.py:89-119 | no text and no evidence is left about the deleted entities, no reply row is lost, and nothing changes about others |
| Desk.DeletionIsGuarded | src/open_reachout/core/forget.py:62-73 | the addresses collected cover every address of the entities deleted |
| Desk.Desk.ResolveTask | src/open_reachout/core/human_tasks.py:151-199 | only an operator resolves a task, once; done counts as a contact on the entity, anything else releases the touch |
| Desk.ForgottenAliasIsDropped | src/open_reachout/core/suppression.py:58-83 | from a deletion on, no candidate passes ingest whose address any chain of rewrites joins to a deleted address |
| Desk.ForgottenAliasIsNotClaimed | src/open_reachout/core/gatekeeper.py:136-173 | a claim on such an alias that still commits was screened before the deletion; a contact with a deleted person, and whoever else passes the confidence gate after it, met a verified prospect that holds the alias all the same |
| Desk.DeletionByAddressBinds | src/open_reachout/core/forget.py:36-52 | after a deletion asked for by address, a contact with a prospect that held an alias of it needs an enrichment in between that gave the address to a verified prospect anew; a reply may have passed its confidence gate before |
| Chronicle.OpenersInRuns | src/open_reachout/core/store_pg.py:75-78 | in every run an opener reads a clock at least 90 days after every earlier contact, less the longest time a contacting transaction stayed open |
| Chronicle.DispatchedWasTold | src/open_reachout/core/sendpath.py:293-297 | in every run each touch whose dispatch committed had been told to the provider |
| Chronicle.NothingToldAfterDispatch | src/open_reachout/core/sendpath.py:246-250 | in every run the provider is told no more about a touch once its dispatch has committed |
| Scenarios.DraftCanBeDelivered | src/open_reachout/core/sendpath.py:244-326 | progress: from any reached world without held locks, a draft of any kind whose gates pass on the committed tables can be delivered, with one provider call |
| Scenarios.ClaimCommitsAfterHalt | src/open_reachout/core/gatekeeper.py:115-118 | a concrete run in which a claim commits after a halt |
| Scenarios.ReplyCommitsAfterDeletion | src/open_reachout/core/gatekeeper.py:168-176 | a concrete run in which the claim of a reply is made and commits after a deletion of its address |
| Scenarios.DuplicateReleases | src/open_reachout/core/sendpath.py:270-290 | a cold duplicate whose touch has become the entity's active sequence is refused and commits the release |
| Scenarios.DuplicateOverwritesSample | src/open_reachout/core/sendpath.py:270-290 | a concrete run in which an overlapping duplicate overwrites a dispatch, with one mail sent |
| Endings.SuppressedMeans | src/open_reachout/core/suppression.py:58-73 | an address is screened out if and only if it is a tombstone, or has a row, global or the tenant's, without expiry or with one that is still to come |
| Endings.BarredMeans | src/open_reachout/db/schema.sql:193-211 | the trigger bars an address if and only if any scope at all has such a row for it |
| Endings.FrequencyMeans | src/open_reachout/core/store_pg.py:58-79 | the frequency gate passes if and only if no sequence runs, fewer than eight touches were counted, and ninety whole days have gone by since the last contact, if there was one |
| Endings.ContinuationMeans | src/open_reachout/core/store_pg.py:82-99 | the continuation gate passes if and only if the running sequence is this prospect's and fewer than eight touches were counted |
| Endings.DispatchLeaves | src/open_reachout/core/sendpath.py:293-353 | row by row what a dispatch leaves: one use of mailbox, tenant and cohort, the day's rows opened, touch, entity, prospect, trial, and the next step planned once with its configured gap, or the entity freed after the last |
| Endings.DeletionLeaves | src/open_reachout/core/forget.py:75-146 | row by row what a deletion leaves: exactly the suppressions of the named addresses go, these become tombstones, the deleted people lose address and state, and every other row of every table stays |
| Endings.DeletionLiftsNothing | src/open_reachout/core/forget.py:75-146 | whoever was screened out before a deletion, deleted or not, still is after it |
| Endings.OtherTablesStay | src/open_reachout/core/sendpath.py:53-93 | which tables each event of the ledger may write; only a deletion touches suppressions |
| Endings.RowsLeft | src/open_reachout/core/sendpath.py:269-277 | the one row that a release, a review, a draft, a receipt, a cap change, a halt or a resume writes, and what it then holds |
| Endings.ResolutionLeaves | src/open_reachout/core/human_tasks.py:151-199 | a resolved task is closed and its touch sent or released; done counts as a contact at its time, anything else leaves the entity alone |
| Endings.StaysSuppressed | src/open_reachout/core/suppression.py:58-73 | through any history, whoever is screened out stays so until a transaction outside the ledger's own events takes the row away or it runs out |
| Undisturbed.RunMeetsFate | src/open_reachout/core/gatekeeper.py:107-189 | the statements of the interleaved protocol, run without disturbance, raise, release with or without a mailbox slot, or commit exactly as the first failing gate says on the rows |
| Undisturbed.EndsAsTheHandler | src/open_reachout/core/sendpath.py:244-326 | the two models agree: a delivery nobody disturbs ends, statement by statement, as the handler's contract says, and leaves the same rows behind |
| Gatekeeper.RefusalIsDetermined | src/open_reachout/core/gatekeeper.py:110-112 | the gates' order makes the reason of a refusal unique |
| Gatekeeper.OutcomeIsDetermined | src/open_reachout/core/sendpath.py:244-326 | from the same tables and the same provider answer only one ending is possible |
| Gatekeeper.EndsByTheRows | src/open_reachout/core/gatekeeper.py:107-189 | every ending the gates allow is the one the rows call for |
| Gatekeeper.GateStore.FrequencyGate | src/open_reachout/core/store_pg.py:58-79 | true exactly for a known entity without an active sequence, below the annual cap, last contacted at least 90 whole days ago |
| Gatekeeper.GateStore.ContinuationGate | src/open_reachout/core/store_pg.py:82-99 | true exactly when the active sequence is this prospect's and the annual cap is not reached |
| Gatekeeper.GateStore.Adjust | src/open_reachout/core/store_pg.py:127-148 | a compensation never goes below zero and always leaves a trace |
| Gatekeeper.GateStore.TryConsumeBudget | src/open_reachout/core/store_pg.py:102-121 | charges both months or neither; a full cohort month gives the tenant's slot back with a trace |
| Gatekeeper.GateStore.ReleaseBudget | src/open_reachout/core/store_pg.py:123-125 | gives both months back, with two traces |
| Gatekeeper.GateStore.LeastUsed | src/open_reachout/core/store_pg.py:165-178 | a least used mailbox among those warm and under their cap |
| Gatekeeper.GateStore.PickMailbox | src/open_reachout/core/store_pg.py:151-191 | opens today's rows, then charges a least used warm mailbox under its cap, or finds none |
| Gatekeeper.GateStore.PersistClaim | src/open_reachout/core/store_pg.py:210-238 | fails exactly when the touch is no longer drafted, or its prospect's address has in any scope a suppression that is not over; otherwise claims the touch and moves the entity |
| Gatekeeper.GateStore.Claim | src/open_reachout/core/gatekeeper.py:107-189 | names the first failing gate and says per reason what a refusal leaves behind, an INTERNAL one all budgets charged; a claim passed every gate and charged exactly its budgets |
| Gatekeeper.GateStore.Deliver | src/open_reachout/core/sendpath.py:244-326 | told by the rows: a flag, a full month, no free mailbox or a barred address raises and leaves the tables as they were; findings, a struck address, a contact too soon or no verified holder release the touch; else exactly one dispatch is left behind; it skips exactly what is out already |
| Gatekeeper.GateStore.Dispatch | src/open_reachout/core/sendpath.py:298-324 | after the provider's receipt: trial, transition, mark, plan |
| Gatekeeper.GateStore.PlanNextStep | src/open_reachout/core/sendpath.py:329-353 | plans the next step once, or frees the entity after the last |
| JobQueue.Queue.Enqueue | src/open_reachout/core/queue.py:38-66 | a taken idempotency key changes nothing; otherwise exactly one ready job is added |
| JobQueue.Queue.Lease | src/open_reachout/core/queue.py:69-93 | leases the due job with the lowest id, counting one attempt, or finds none due |
| JobQueue.LeaseExactly | src/open_reachout/core/queue.py:69-93 | a job may be leased if and only if it is ready, in that queue and due; the lease lasts 120 seconds and counts one attempt |
| JobQueue.Queue.Report | src/open_reachout/core/worker.py:79-105 | the row after done, retry with exponential backoff, or dead letter, named by id alone |
| JobQueue.ReportExactly | src/open_reachout/core/queue.py:96-118 | which report ends, buries or requeues a job; the first retry waits 60 seconds and each further one twice as long as the one before |
| JobQueue.Queue.ReapExpired | src/open_reachout/core/queue.py:121-131 | no expired lease is left; a requeued job keeps its attempts, queue and run time, every other row is untouched, and the count is that of the expired ones |
| JobQueue.ReapedIsDueAgain | src/open_reachout/core/queue.py:69-131 | a leased job is neither due nor expired until its lease has run out, and once reaped it is due at once, one attempt poorer |
| JobQueue.Queue.RunOnce | src/open_reachout/core/worker.py:46-58 | leases from the first handled queue, in priority order, that has a due job |
| JobQueue.ActKeepsInv | src/open_reachout/core/queue.py:69-131 | every lease, report, crash and reap keeps the relation between attempts, outstanding leases and retries |
| JobQueue.LeasesAreBounded | src/open_reachout/core/queue.py:96-118 | whatever workers do, stale reports included, a job's leases are at most max_attempts plus its reaps, with strictly growing attempt numbers |
| JobQueue.AlwaysFailingUsesEveryAttempt | src/open_reachout/core/queue.py:100-118 | the bound is met: a life that happens, from the job's birth on with a clock that never goes back, takes every attempt without a reap, and the last one dead-letters |
| JobQueue.StaleReportRevivesDone | src/open_reachout/core/queue.py:96-118 | a life that happens, in which a stale retry report turns a finished job ready again |
| JobQueue.RevivedExactly | src/open_reachout/core/queue.py:96-118 | an act turns a finished row ready if and only if it is a retry report whose lease is still out and whose attempt was not the last |
| Sentiment.CohortSentiment | src/open_reachout/stats/sentiment.py:61-64 | the loop computes the closed weighted sum |
| Sentiment.MeanStaysInRange | src/open_reachout/stats/sentiment.py:27-33 | the score stays within [-3, 2] |
| Sentiment.SplitMean | src/open_reachout/stats/sentiment.py:61-64 | the score over two stretches is the recent score plus the decayed older one |
| Sentiment.WindowIsEnough | src/open_reachout/stats/sentiment.py:42-43 | reading only the last 200 replies differs from the full history by at most 3/1024 below and 2/1024 above |
| Sentiment.HostileMean | src/open_reachout/stats/sentiment.py:61-64 | n hostile replies score exactly -3(1 - b^n) |
| Sentiment.KindMean | src/open_reachout/stats/sentiment.py:27-33 | what n replies of each kind score: 2, -0.5, -1, -2, -3 or nothing, times (1 - b^n) |
| Sentiment.WhatThrottles | src/open_reachout/stats/sentiment.py:34-39 | refusals alone cross the throttle line if and only if there are at least twenty-one; objections alone never do |
| Sentiment.ActsExactly | src/open_reachout/stats/sentiment.py:98-144 | when the last two hundred replies pause or throttle, and what is left of the cap: nothing, or half rounded down but at least one |
| Sentiment.PauseNeedsFifteen | src/open_reachout/stats/sentiment.py:34-39 | the pause line can be crossed with n replies if and only if n is at least fifteen |
| Sentiment.PauseWaitsForTwenty | src/open_reachout/stats/sentiment.py:147-162 | the classify hook cannot pause before the twentieth reply |
| Sentiment.CohortMonth.Evaluate | src/open_reachout/stats/sentiment.py:98-144 | the action and the new cap as the window's score and the period's earlier actions decide; a pause escalates |
| Sentiment.CohortMonth.MaybeEvaluate | src/open_reachout/stats/sentiment.py:147-162 | acts only on every tenth reply, and never pauses before the twentieth |
| Sentiment.ThrottleRaisesOnlyZero | src/open_reachout/stats/sentiment.py:98-143 | an evaluation raises the cap if and only if the cap is zero, the month has no throttle yet, there are replies enough and their score lies between the two lines |
| Sentiment.ActsOncePerPeriod | src/open_reachout/stats/sentiment.py:67-81 | whatever replies come in, a month throttles at most once and pauses at most once |
| Sentiment.CapOverPeriod | src/open_reachout/stats/sentiment.py:132-143 | a month's cap ends no higher than it began, unless it began at zero: then at most at one |
| Sentiment.PauseThenThrottleReopens | src/open_reachout/stats/sentiment.py:105-143 | twenty hostile replies pause the month, ten neutral ones later throttle it, and the cap is one |
| Sentiment.ReopenedMonth | src/open_reachout/stats/sentiment.py:147-162 | the same through the classify hook on one month |
| SchemaClean.Clean | src/open_reachout/adapters/llm/gemini_backend.py:166-187 | the recursion terminates whenever the definitions are acyclic, and computes the rewriting |
| SchemaClean.CleanObject | src/open_reachout/adapters/llm/gemini_backend.py:167-184 | filling the dictionary gives the same result in any key order: a plain bound wins over an exclusive one |
| SchemaClean.GeminiSchema | src/open_reachout/adapters/llm/gemini_backend.py:159-191 | rewrites the root without its definitions |
| SchemaClean.RankingIsIrrelevant | src/open_reachout/adapters/llm/gemini_backend.py:168-170 | the result does not depend on how acyclicity is witnessed |
| SchemaClean.ReferenceIsInlined | src/open_reachout/adapters/llm/gemini_backend.py:163-170 | a reference `.../name` is rewritten to what the definition of that name is rewritten to, and to the empty schema when the root defines none of that name |
| SchemaClean.ObjectExactly | src/open_reachout/adapters/llm/gemini_backend.py:171-184 | key by key: five keys go, a bound takes the exclusive one's place only where there is no plain one, and everything else is rewritten where it stands |
| SchemaClean.CleanedIsTidy | src/open_reachout/adapters/llm/gemini_backend.py:171-184 | the result is free of references, additionalProperties, titles, defaults and exclusive bounds if and only if every exclusive bound moved as it stands is |
| SchemaClean.TidyIsFixed | src/open_reachout/adapters/llm/gemini_backend.py:166-187 | a tidy schema is left unchanged, so the rewriting is idempotent on its tidy results |
| SchemaClean.ReferenceSurvives | src/open_reachout/adapters/llm/gemini_backend.py:177-179 | a property called exclusiveMinimum keeps the reference inside it |
| SchemaMeaning.CleaningRelaxes | src/open_reachout/adapters/llm/gemini_backend.py:174-184 | every value the schema accepts is accepted after the rewriting, for references, bounds, properties, patternProperties, items, prefixItems, contains, anyOf and allOf and any reading of the keywords left uninterpreted |
| SchemaMeaning.CleaningKeepsMeaning | src/open_reachout/adapters/llm/gemini_backend.py:166-187 | on schemas in which nothing dropped or softened occurs, `not` and `oneOf` included, the result accepts exactly what the schema with its definitions accepted |
| SchemaMeaning.NotReverses | src/open_reachout/adapters/llm/gemini_backend.py:174-184 | under `not` the rewriting can only tighten: what it accepts was accepted before |
| SchemaMeaning.NotIsTightened | src/open_reachout/adapters/llm/gemini_backend.py:174-184 | and it does: `not` over an exclusive minimum of zero accepts zero before and refuses it after |
| SchemaMeaning.OneOfIsTightened | src/open_reachout/adapters/llm/gemini_backend.py:174-184 | `oneOf` over an exclusive minimum and a maximum of zero accepts zero before and refuses it after |
| SchemaMeaning.PropertyIsRenamed | src/open_reachout/adapters/llm/gemini_backend.py:177-179 | with a property called exclusiveMinimum, an object is accepted before and refused after for every value that property's schema refuses |
| SchemaMeaning.RenamedPropertyRefusesTwo | src/open_reachout/adapters/llm/gemini_backend.py:177-179 | the same for one concrete schema and value |
| Canonical.SameFormMeansJoined | src/open_reachout/core/canonical.py:32-64 | two accepted addresses have the same form if and only if trimming, case, plus-suffix, Gmail-dot and Googlemail rewrites join them |
| Canonical.FormExactly | src/open_reachout/core/canonical.py:39-64 | the form of a local part, perhaps with a plus suffix, at a dotted domain: without suffix, at Gmail without dots and at gmail.com, refused when nothing is left or a label does not fit |
| Canonical.AcceptedShape | src/open_reachout/core/canonical.py:25-38 | whatever is accepted has that shape once trimmed and lowered |
| Canonical.TrimmedAndLowered | src/open_reachout/core/canonical.py:35-35 | white space around an address and the case of its letters make no difference |
| Canonical.LabelsExactly | src/open_reachout/core/canonical.py:52-57 | a domain fits if and only if each label has at most 63 characters and none but the last is empty |
| Canonical.Idempotent | src/open_reachout/core/canonical.py:35-35 | the form of the form is the form |
| Canonical.StepKeepsForm | src/open_reachout/core/canonical.py:32-64 | no single rewrite changes the form or the refusal of an address |
| Canonical.RoadIsChain | src/open_reachout/core/canonical.py:39-64 | every accepted address reaches its form by the rewrites alone |
| Canonical.RefusalIsStable | src/open_reachout/core/canonical.py:36-37 | no rewrite makes a refused address acceptable |
| Attribution.LinksAreExtended | src/open_reachout/core/attribution.py:36-48 | scanning the rewritten body finds exactly the original links, each extended by the token |
| Attribution.LinkExactly | src/open_reachout/core/attribution.py:27-27 | a link is the scheme in any case and at least one character behind it, and goes as far as it can |
| Attribution.TextIsRewoven | src/open_reachout/core/attribution.py:36-48 | the rewritten body is the same text between the same links, each with the token as one more parameter of its query |
| Attribution.WordsExactly | src/open_reachout/core/compliance/validators.py:145-148 | words are counted one by one, whatever white space stands between and around them |
| Attribution.ChecksExactly | src/open_reachout/core/compliance/validators.py:145-155 | a body passes if and only if its words are not too many and each of its links begins, in any case, with an allowed prefix |
| Attribution.WordsAreKept | src/open_reachout/core/compliance/validators.py:145-148 | the token adds no word |
| Attribution.ChecksSurvive | src/open_reachout/core/compliance/validators.py:153-155 | a body that passed the link allowlist and the word limit still passes both |
| Attribution.TokenVerifies | src/open_reachout/core/attribution.py:51-70 | a token verifies and gives back the identifier it was made from |
| Attribution.VerifiedIsGenuine | src/open_reachout/core/attribution.py:58-70 | whatever verifies carries the MAC of the identifier it is attributed to |
| Attribution.BoundContentIsChecked | src/open_reachout/core/sendpath.py:53-62 | the stored hash is that of the final body, which still passes the link and length checks |
| Envelope.EscapedHasNoTag | src/open_reachout/security/envelope.py:15-19 | escaped content holds no close tag in any letter case |
| Envelope.EscapeOnlyTags | src/open_reachout/security/envelope.py:15-19 | the escape leaves untouched exactly the texts without a tag |
| Envelope.TagIsCloseTag | src/open_reachout/security/envelope.py:15-19 | a tag is the close tag in any letter case |
| Envelope.EscapeReplaces | src/open_reachout/security/envelope.py:60-60 | a tag is replaced by its inert twin; what stands before it stays, what stands behind it is escaped in turn |
| Envelope.ContentIsRecovered | src/open_reachout/security/envelope.py:52-66 | the block is refused exactly for unknown sources; else source, digest of the escaped content and identifier stand in its first line, and the escaped content between that and the final tag |
| Envelope.BlockTags | src/open_reachout/security/envelope.py:61-64 | the block's close tags are its own, plus those of source, identifier and content |
| Envelope.OnlyItsOwnTag | src/open_reachout/security/envelope.py:52-66 | for all content the block ends in the close tag, and holds it exactly once if and only if neither source nor identifier brings one along |
| Envelope.BaseSourcesHaveNoTag | src/open_reachout/security/envelope.py:69-75 | of the allowed sources only a variable's name can bring one along |
| Variables.Lookup | src/open_reachout/core/variables.py:63-72 | the search over dotted prefixes finds the registered class |
| Variables.MostSpecificWins | src/open_reachout/core/variables.py:63-72 | a slot is unknown exactly when no entry covers it; otherwise its own entry, else the longest wildcard, decides |
| Variables.ExtractSlots | src/open_reachout/core/variables.py:55-60 | the distinct slots in order of first appearance |
| Variables.SlotIsWritten | src/open_reachout/core/variables.py:22-22 | what is taken for a slot is a name of letters, digits, underscores and dots between double braces, perhaps with white space around it |
| Variables.WrittenIsSlot | src/open_reachout/core/variables.py:22-22 | and whatever is written so is taken for a slot, whatever follows |
| Variables.Resolve | src/open_reachout/core/variables.py:104-135 | the substitution loop computes the resolution, its errors included |
| Variables.NoInterference | src/open_reachout/core/variables.py:82-83 | two value maps that agree outside the untrusted slots give the same text or the same error |
| Variables.FillsExactly | src/open_reachout/core/variables.py:119-135 | once every slot is known, resolution succeeds exactly when every slot has a value of its registered class; then the trace is the slots' values in order and the envelope gets exactly the untrusted ones |
| Variables.TextIsWoven | src/open_reachout/core/variables.py:119-135 | the text of a resolved prompt: its literal pieces in order, with the value's text at each trusted or prospect slot and `[UNTRUSTED-REF:slot]` at each untrusted one |
| Variables.FailsExactly | src/open_reachout/core/variables.py:104-130 | unregistered slots fail with exactly these, each once, in order of first appearance; else the first slot without a fitting value decides which error it is |
| Discovery.BoundExists | src/open_reachout/agents/discovery.py:242-253 | the bound fails to exist if and only if more successes than trials were counted |
| Discovery.BoundIsLargestReachable | src/open_reachout/agents/discovery.py:242-253 | the bound solves n(u - p)^2 = z^2 u(1 - u), is the largest rate within that reach and lies in [p, 1], so the clamp never bites |
| Discovery.BoundGrows | src/open_reachout/agents/discovery.py:242-253 | more successes never lower the bound |
| Discovery.NoSuccessBound | src/open_reachout/agents/discovery.py:242-253 | without successes the bound is z^2 / (n + z^2) with z = 1.2816 |
| Discovery.FlaggedExactly | src/open_reachout/agents/discovery.py:284-306 | a cohort is flagged if and only if it has trials enough and one of its floors lies above every rate within reach of what was seen |
| Discovery.AmountsExactly | src/open_reachout/agents/discovery.py:95-98 | the amounts asked for: a quarter, and a half, of the cap, rounded down but at least one |
| Discovery.GoodCohortIsNotFlagged | src/open_reachout/agents/discovery.py:284-306 | a cohort whose rates meet its floors is never flagged |
| Discovery.ScanFailsExactly | src/open_reachout/agents/discovery.py:300-301 | the scan fails exactly on a cohort whose reply floor is checked while it has more replies than contacts |
| Rebalance.Best | src/open_reachout/agents/discovery.py:277-277 | a cohort with the highest conversion rate, or none when no cohort has an outcome |
| Rebalance.RebalanceScan | src/open_reachout/agents/discovery.py:271-333 | succeeds exactly when no cohort's bound fails, else leaves the book as it was; files a row only for flagged cohorts, and afterwards each flagged cohort has an open proposal or one declined lately |
| Rebalance.OnlyWeakCohortsAreFiled | src/open_reachout/agents/discovery.py:284-328 | no row the scan files is against a cohort whose rates meet its floors |
| Rebalance.FlaggedCohorts | src/open_reachout/agents/discovery.py:284-306 | the cohorts the scan flags are exactly those with floors and an outcome one of whose floors is out of reach |
| Rebalance.FiledExactly | src/open_reachout/agents/discovery.py:308-328 | what is filed: half the cap to a cohort that none converts better than, if one converts better; else a pause; under the cohort's own key |
| Rebalance.FiledShiftKeepsTotal | src/open_reachout/agents/discovery.py:308-319 | a shift the scan files, applied to unchanged caps, keeps the cap total unless the cohort's cap was zero; a pause lowers it by that cap |
| Proposals.Store.Propose | src/open_reachout/core/proposals.py:41-81 | refuses exactly on an open duplicate or a decline within 90 days; otherwise files one open row |
| Proposals.Store.Decline | src/open_reachout/core/proposals.py:114-128 | needs an operator and an open proposal; records when |
| Proposals.Store.Approve | src/open_reachout/core/proposals.py:131-154 | who may approve what, and the caps and row afterwards; a broken payload changes nothing |
| Proposals.Store.AutoReview | src/open_reachout/core/proposals.py:194-208 | approves exactly the tenant's open, automatically applicable proposals, in order, or nothing |
| Proposals.FilingKeepsOrder | src/open_reachout/core/proposals.py:54-69 | filing keeps the history orderly: nothing behind an open row, nothing within 90 days of a decline |
| Proposals.OneOpenPerKey | src/open_reachout/core/proposals.py:51-69 | each dedupe key has at most one open proposal |
| Proposals.ShiftMovesTotal | src/open_reachout/core/proposals.py:178-191 | a shift moves the cap total by max(0, amount - source cap), so keeps it if and only if the source covers the amount |
| Proposals.ShiftExactly | src/open_reachout/core/proposals.py:178-191 | cohort by cohort: the source gives what it has, the target gets all of it, no other cap moves, and no row appears |
| Proposals.ApplicationExactly | src/open_reachout/core/proposals.py:155-191 | which payloads are broken, which move caps and how, and that what is left to a human moves nothing |
| Proposals.ShiftWithoutRow | src/open_reachout/core/proposals.py:178-191 | with one row missing the amount is lost or created |
| Proposals.ProposedAmounts | src/open_reachout/agents/discovery.py:95-98 | amounts proposed from an unchanged cap keep the total, except that a cap of zero raises it by one |
| Proposals.ReviewedRows | src/open_reachout/core/proposals.py:204-207 | after the review exactly the eligible rows are approved |
| Proposals.ReviewMovesTotal | src/open_reachout/core/proposals.py:178-208 | the review moves the total by exactly what each shift's source lacked, less what each pause removed, when it was applied |
| Proposals.ReviewRaisesTotal | src/open_reachout/core/proposals.py:194-208 | the review raises the total if and only if what its shifts' sources lack exceeds what its pauses remove |
| Proposals.ReviewCanRaiseTotal | src/open_reachout/core/proposals.py:194-208 | two shifts out of a cap of one raise the total by one |
| Nppes.Discover | src/open_reachout/adapters/sources/nppes.py:58-72 | the loop returns exactly the page that starts at the cursor |
| Nppes.LineExactly | src/open_reachout/adapters/sources/nppes.py:62-64 | a line ends with a line feed, a carriage return, or both, or with the file, and nowhere else |
| Nppes.EachLineOnce | src/open_reachout/adapters/sources/nppes.py:64-72 | a pass reads each line once, in order, and keeps what is made of it |
| Nppes.PageLosesNothing | src/open_reachout/adapters/sources/nppes.py:58-72 | a page is at most a batch, has a cursor exactly when full, and page plus rest is what a pass from its start keeps |
| Nppes.FullOnLastLine | src/open_reachout/adapters/sources/nppes.py:70-72 | a batch filled by the last line still hands out a cursor, behind which is one empty page |
| Nppes.Sweep | src/open_reachout/core/prospecting.py:144-153 | following the cursors terminates; the keys taken afterwards are those before plus the cursors met |
| Nppes.SweepIsOnePass | src/open_reachout/core/prospecting.py:148-153 | with no key taken ahead, the pages together are one filtered pass: no row lost or repeated |
| Nppes.FirstSweepIsComplete | src/open_reachout/core/prospecting.py:136-153 | a cohort's first sweep covers the file |
| Nppes.FirstSweepReadsEachLine | src/open_reachout/core/prospecting.py:136-153 | it makes a candidate of every line behind the header that yields one, in order, wherever the batches are cut |
| Nppes.LaterSweepIsOnePage | src/open_reachout/core/prospecting.py:149-153 | a later sweep finds its second page's key taken and stops after one page |
| Events.TerminalIsFinal | src/open_reachout/core/states.py:69-76 | whoever reached a terminal state stays in it or is forgotten |
| Events.ContactComesFirst | src/open_reachout/core/states.py:35-76 | no outcome state is reached without an earlier contact |
| Events.WhoMayBecome | src/open_reachout/core/states.py:35-76 | where each state can be reached from |
| Events.TerminalExactly | src/open_reachout/core/states.py:69-76 | terminal are exactly the states behind which there is nothing but being forgotten |
| Events.EventStore.Suppress | src/open_reachout/core/suppression.py:21-55 | stores the canonical address and asks the provider to pause it |
| Events.EventStore.Act | src/open_reachout/core/events.py:108-158 | each event's whole effect on suppressions, guardrails, replies with their jobs, touches, states and skipped transitions |
| Events.MoveExactly | src/open_reachout/core/events.py:90-158 | which state a bounce, complaint, unsubscribe or reply leads to, and from which states; any other attempt leaves a trace only |
| Events.EffectExactly | src/open_reachout/core/events.py:108-144 | what it does besides: a reply is kept and queued, a safety event counts against the variant and suppresses the canonical address with its kind as the reason |
| Events.ReceiptExactly | src/open_reachout/core/events.py:145-158 | a receipt marks exactly a dispatched touch as sent; events about nothing known do nothing |
| Events.EventStore.Ingest | src/open_reachout/core/events.py:31-54 | ends in the specified state and returns the number of new identifiers |
| Events.EventStore.SafeTransition | src/open_reachout/core/events.py:90-105 | moves the prospect where the life cycle allows it, else leaves a trace |
| Events.RepliesAreClassified | src/open_reachout/core/events.py:130-144 | exactly the replies taken in have a classification job |
| Events.FreshIds | src/open_reachout/core/events.py:38-51 | the identifiers acted on are exactly the new ones |
| Events.FreshOnce | src/open_reachout/core/events.py:38-51 | no identifier is acted on twice |
| Events.DuplicatesChangeNothing | src/open_reachout/core/events.py:50-51 | a list with duplicates ends in the state of its fresh events ingested once |
| Events.BatchesCompose | src/open_reachout/core/events.py:31-54 | cutting a list into deliveries does not change the final state |
| Events.CountsCompose | src/open_reachout/core/events.py:52-54 | nor the total of the counts returned |
| Events.StoppingEventsBind | src/open_reachout/core/events.py:90-129 | every fresh bounce, complaint or unsubscribe with an address leaves it suppressed, even where the state may not change |
| Events.IngestingKeepsTerminal | src/open_reachout/core/events.py:90-105 | ingestion never leaves a terminal state |
| Events.GuardrailsCountFreshEvents | src/open_reachout/core/events.py:114-128 | a variant's guardrail counts grow by exactly the fresh events of that kind about its touches |
| EntityKeys.EntityStore.Resolve | src/open_reachout/core/entity.py:65-113 | the two loops compute the specified resolution and registry |
| EntityKeys.KeysExactly | src/open_reachout/core/entity.py:36-60 | which keys a candidate has, and that they come strongest first |
| EntityKeys.PhoneExactly | src/open_reachout/core/entity.py:26-27 | of a phone number the last ten digits count, however it is written |
| EntityKeys.DomainExactly | src/open_reachout/core/entity.py:30-34 | the domain is the host in small letters without a leading www, whatever scheme and path |
| EntityKeys.StrongestKeyDecides | src/open_reachout/core/entity.py:73-112 | the resolved entity owns the candidate's strongest key from then on |
| EntityKeys.FlagsAreExact | src/open_reachout/core/entity.py:86-113 | an entity is created exactly when no key had an owner; a conflict is flagged exactly when two keys had different ones |
| EntityKeys.OwnershipIsForever | src/open_reachout/core/entity.py:102-112 | no key ever changes its owner |
| EntityKeys.RunStaysValid | src/open_reachout/core/entity.py:86-100 | every owner is an entity that exists |
| EntityKeys.SameStrongestKeySameEntity | src/open_reachout/core/entity.py:40-56 | candidates with the same strongest key, in particular one candidate seen twice, always resolve to one entity |
| EntityKeys.SharedEmailSameEntity | src/open_reachout/core/entity.py:41-45 | any two candidates with the same canonical address resolve to one entity, whatever is resolved between them |
| EntityKeys.SharedPracticeSameEntity | src/open_reachout/core/entity.py:46-56 | without addresses candidates with one NPI, and with nothing stronger those with one domain and phone, resolve to one entity |
| EntityKeys.SharedNpiKeepsTwo | src/open_reachout/core/entity.py:46-48 | a shared weaker key is not enough, and the conflict is flagged |

## Left out

- Desk.Desk.ResolveTask: takes the human task's touch, prospect and entity to exist, as the foreign keys of the schema demand.
- SchemaMeaning.CleaningRelaxes: leaves out schemas with objects under `not`, `oneOf` or another uninterpreted keyword, a `contains` that is counted, enumerations of objects, and properties or patterns called `$ref` or like an exclusive bound; for `not`, `oneOf` and those properties the lemmas beside it show that it fails there.
- SchemaClean.Clean: a `$ref` that is no string (possible only as a property name) names no definition here, where the code would take the end of its printed form.
- Canonical.SameFormMeansJoined: ASCII addresses only; IDNA encoding of other names and Unicode case and white space are not modelled. The same holds for the scanners of links, tags and slots.
- Attribution.TokenVerifies: reading and printing UUIDs and the MAC are parameters with the few facts the proof names; forging a MAC is a matter of cryptography.
- Discovery.WilsonUpper: real arithmetic without floating-point rounding, as for the sentiment score.
- Desk.ForgottenAliasIsNotClaimed: takes the address stored with the prospect to be its own canonical form, as enrichment stores it.
- Events.EventStore.Ingest: takes stored addresses to have a canonical form; on any other the code raises, and the delivery is rolled back.
- The loop of `analyze`: its proposals go through the same store; only its amounts are modelled.
- Transactions take one period and one clock reading; the clock is monotone; the period does not change inside a transaction.
- Transactions other than deliver commit as single atomic steps that need their rows unlocked; deadlocks and serialization errors appear as rollbacks.
- The validators' verdict, groundedness and the provider's answer are inputs of `deliver`; the batteries of forbidden patterns are not modelled, nor is full preservation of `validate` under link tokens.
- Tombstones are the canonical addresses themselves, standing for their hashes.
- Decision traces, audit rows other than budget adjustments and skipped transitions, and provider references are not stored in the model.
- The re-verification of a claimed touch before dispatch (`reissue`, `load_claimed`), `drain`, task expiry and the review ramp's count: single-branch facts.
- The compose, qualify, enrich and trigger handlers: a follow-up draft is an event that needs its compose job and due time; the rest is calls to a language model.
- Sequences with human tasks run through `create_for_step`, which is the ledger's parking event.
- Conversions (`record_conversion`), which only move a prospect and add a row for the touch a token names.
- Reply classification beyond its sentiment hook and the release of a sequence; agentic replies are touches of the reply profile.
- Pausing a variant on a guardrail breach; only the counts are modelled.
- Entity keys: one tenant, no deletions, no fuzzy matching.
- Reading a registry row from CSV and matching it are one parameter of the paging loop.
- Bandit sampling, metrics, reports, sender profile, DNS checks, dashboards, SMTP and IMAP.
