# DeltaLLM batch execution and billing: a verified model

This project models the part of DeltaLLM that turns a claimed batch of requests into work units, stored
results, outbox rows and money, and proves what that part promises over every input and every run. Each
component has a value-level specification (functions over datatypes), the in-place or looping form of the
original proved equal to it, and lemmas about the specification.

| files | component |
|---|---|
| `EmbeddingPlanner`, `PlannerLaws`, `PlannerRuns`, `PlannerOrigins` | the work planner shared by several runners, and every interleaving of them |
| `CompletionProtocol`, `CompletionRuns`, `CompletionWorkers`, `CompletionCharges` | item claims with epochs, bulk completion with outbox rows, delivery to the ledger, and who is charged |
| `SpendLedger`, `BillingRuns`, `BudgetSchedule` | spend events, counters, and budget resets by compare-and-swap |
| `BudgetCalendar` | the calendar arithmetic of budget resets |
| `Apportionment`, `UsageAllocation`, `CompletionCost`, `Arithmetic` | largest-remainder allocation of tokens, and what it costs |
| `ChatSplitter`, `ChatPlanner`, `ChatPlanLaws` | the chat microbatch splitter and the grouping around it |
| `ResultNormalizer` | validation of batched responses |
| `GroupRetry` | requeueing of failed groups |
| `Utf8`, `LineReader` | reading and writing artifacts line by line |
| `StreamCache`, `StreamRuns` | accumulating and replaying streamed completions, and requests that share a stream |
| `ArtifactPages`, `ArtifactFinalizer`, `ArtifactWorkers`, `ArtifactRuns` | writing, attaching and cleaning up a batch's artifacts, and attempts that race |
| `DeepMerge` | merging configuration maps |

How concurrency and failures appear:

* A planning call runs under the planning lock, so it is one step; runners interleave at steps. What a
  preparation answers is a function of the number of preparations so far, so the same item may get two answers.
* A database statement or transaction is one step. Its outcome for the caller is `Commits`,
  `RaisesBeforeCommit` (nothing changed) or `RaisesAfterCommit` (everything changed, the reply was lost). A crash
  is a worker that takes no further step. Rows skipped because another transaction has locked them are a
  parameter of the statement.
* Clocks, generated identifiers, storage keys and provider answers are parameters. Generated identifiers
  are assumed new.

Results that are not what one might expect, each proved with its exact condition:

* A bulk completion that lists an owned item twice completes it without an outbox row and answers that it
  was not owned (`CompletionRuns.CompletionIsSafeIff`); the update returns each row once while the
  payload rows are counted. The callers list claimed items once.
* A finalization whose attaching statement is committed and then raises deletes the files it has attached.
  The foreign keys clear the job's references, so the job ends without the artifacts it wanted
  (`ArtifactFinalizer.LosesArtifactsIff`); it points to a missing object only if deleting the record failed after
  deleting the object worked (`ArtifactFinalizer.DanglesIff`). A file record whose creation is committed and then
  raises stays (`ArtifactFinalizer.FailureIsAtomic`).
* An outbox worker keeps holding a record whose delivery failed when the marking raises as well
  (`CompletionWorkers.StillHeldIff`). Whatever is still held is under a lease, so it can be taken up again when the
  lease has expired (`CompletionRuns.NothingIsStuck`).
* An item that cannot be serialized fails its batch for good only if no read or write fails before it is reached;
  otherwise the batch is retried (`ArtifactFinalizer.InvalidIff`, `ArtifactFinalizer.AnEarlyFailureIsRetried`).
* Streams are cached under the cache key, so concurrent requests with one key share a stream, and the text stored
  need not be one request's (`StreamRuns.StreamIsOwnIff`, `StreamRuns.TwoRequestsMix`).
* Adding months without an anchor day is not compositional (`BudgetCalendar.UnanchoredMonthsCompose`); with the
  anchor it is.
* Merging is not associative where a leaf in the middle separates two maps (`DeepMerge.AssociativeIff`).
* What is written line by line is read back only if no line holds a newline (`LineReader.RoundTrip`).

`dafny verify dfyconfig.toml` checks the whole project.

## Model

| member | source | states |
|---|---|---|
| EmbeddingPlanner.Planner.PopNextCandidate | src/batch/embedding_worker_execution.py:897-932 | the popping loop over the three queues computes exactly `PopNext`, and does not touch the chunk slot |
| EmbeddingPlanner.Planner.RequeueDeferredCandidates | src/batch/embedding_worker_execution.py:848-865 | held candidates go back in order: groupable ones to the front of the deferred items, the others to the front of the backlog |
| PlannerLaws.HeldGoFirst | src/batch/embedding_worker_execution.py:848-865 | candidates held back go in front of what was queued before, in their order, each into exactly one of the two queues, and none that can be grouped into the backlog |
| EmbeddingPlanner.Planner.PlanNextWorkUnit | src/batch/embedding_worker_execution.py:946-992 | one planning call computes exactly `PlanNext`, whatever the preparations answer |
| PlannerLaws.PlanConserves | src/batch/embedding_worker_execution.py:946-992 | every queued item is issued by the call or still queued, exactly as many times as before |
| PlannerLaws.PlanKeepsInv | src/batch/embedding_worker_execution.py:856-992 | the backlog never holds a groupable item, deferred and raw items stay a subsequence of the claimed order, the slot event mirrors the chunk in flight; a planned chunk has one key and cap, at most cap members, and is short only when no raw item is left; exit means all queues are empty |
| PlannerOrigins.PlanTells | src/batch/embedding_worker_execution.py:867-992 | after every call each prepared item in the backlog, in a single unit or in a chunk carries traits that a preparation of that very item answered, and a failure is queued or issued only for an item whose preparation, or whose look, raised |
| PlannerOrigins.ShortChunkTookAll | src/batch/embedding_worker_execution.py:968-990 | a chunk below its cap took every item that fits: each item left waiting was prepared by this call and answered to be groupable with another key or cap |
| PlannerOrigins.NothingIsPreparedTwice | src/batch/embedding_worker_execution.py:897-992 | a call prepares each waiting item at most once, and while a chunk is in flight exactly the raw items it passes whose request shows that they cannot be grouped |
| PlannerOrigins.SinglesCannotBeGrouped | src/batch/embedding_worker_execution.py:958-966 | an item is sent by itself only if its own preparation answered that it is not eligible or has no cap above one |
| PlannerOrigins.ServedFirst | src/batch/embedding_worker_execution.py:897-966 | a failure is served first, then with a free slot the item deferred first, then one prepared before, then the first raw item |
| PlannerRuns.StepConserves | src/batch/embedding_worker_execution.py:994-1020 | no step of any runner loses or duplicates an item among queues, units being executed, and done items |
| PlannerRuns.EveryRunIsSafe | src/batch/embedding_worker_execution.py:831-1020 | in every interleaving, also of waiters that were woken before the slot was taken again, each claimed item is in exactly one place, at most one grouped chunk is in flight, and the planner's invariant holds |
| PlannerOrigins.EveryRunIsTruthful | src/batch/embedding_worker_execution.py:831-1020 | the same in every interleaving: everything held or executed as prepared was answered so, and every failure was met |
| PlannerOrigins.ChunksShareAnswers | src/batch/embedding_worker_execution.py:968-992 | in every interleaving the items of one upstream request were all answered by their own preparations to be groupable, with one key and one cap, which holds |
| PlannerRuns.NoDeadlock | src/batch/embedding_worker_execution.py:943-1020 | in every reachable state some runner can step unless all have exited; a waiting runner that cannot step has a chunk in flight whose runner can |
| PlannerRuns.WaitersAreWoken | src/batch/embedding_worker_execution.py:934-944 | while the slot is taken some runner executes a chunk, and its end wakes every waiting runner, which then goes on even if the slot is taken again first |
| PlannerRuns.AllExitedMeansAllDone | src/batch/embedding_worker_execution.py:994-1020 | when all runners have exited, the queues are empty and every claimed item was executed exactly as often as it was claimed |
| PlannerRuns.RunsEndDone | src/batch/embedding_worker_execution.py:994-1020 | a run that cannot be extended has every runner exited, the queues empty and every claimed item executed exactly as often as it was claimed |
| PlannerRuns.EveryRunIsShort | src/batch/embedding_worker_execution.py:897-1020 | every interleaving, with waiters and woken runners, is finite: at most (4n+2) steps for each item plus n, for n runners |
| CompletionRuns.ItemEvolves | src/batch/repositories/item_repository.py:90-673 | claiming, releasing, failing, renewing, requeueing and cancelling never lower an epoch, never touch or create a completed item, and never hand a claim over under the same epoch |
| CompletionRuns.ClaimsTakeTheFree | src/batch/repositories/item_repository.py:90-146 | a claim takes exactly the chosen items that are pending with every delay over or held under a lease that has run out, raises their epoch, and nobody else can claim them before the new lease has run out |
| CompletionRuns.HeldStatements | src/batch/repositories/item_repository.py:274-673 | each other statement changes an item exactly if the worker holds it under that very claim (or it is expired, pending or unfinished, as the statement asks): a retry makes it claimable again exactly when its delay is over and only if that meets the deadline, a failure is final, a renewal keeps it until the new lease ends |
| CompletionRuns.CompletingKeepsIndex | src/batch/repository.py:783-808 | completing owned, distinct items inserts one row for each, so the check for missing rows cannot fire, and completed items and rows stay in one-to-one correspondence |
| CompletionRuns.EnqueueSkips | src/batch/repositories/completion_outbox_repository.py:55-108 | whatever is indexed already: existing rows and their index stay, every entry ends up indexed, and the number returned is that of the new ones |
| CompletionRuns.EveryRunIsSafe | src/batch/repository.py:773-827 | in every run with crashes, lost leases, re-claims and lost replies: an item has an outbox row exactly when it is completed, at most one, with the cost stored in the item; locks match states; claimed records stay true; events carry their payload |
| CompletionRuns.RunIsLater | src/batch/repositories/completion_outbox_repository.py:110-239 | over any run no epoch falls, completed items and outbox payloads never change, sent and abandoned rows stay as they are |
| CompletionRuns.NothingIsStuck | src/batch/repositories/item_repository.py:90-146 | whatever a crash left behind can be taken up again: in every reachable state an item pending or in progress can be claimed by anybody, under the next epoch, from some time on, and so can a row neither sent nor abandoned |
| CompletionRuns.ClaimingTakesTheDue | src/batch/repositories/completion_outbox_repository.py:110-164 | a completion is handed out exactly when it is queued or retrying with its delay over, or held under a lease that has run out; then it is held under a new lease with one attempt more and nothing else changed, as the record says; any other is unchanged |
| CompletionRuns.RenewalsMoveTheLease | src/batch/completion_outbox.py:237-270 | a renewal moves the lease of a row that the worker holds, and does nothing to any other |
| CompletionRuns.StaleEpochCompletesNothing | src/batch/repositories/item_repository.py:236-272 | once an item was claimed again, a completion naming the older epoch changes nothing, whenever it arrives and whatever else it lists |
| CompletionRuns.StaleStatementsChangeNothing | src/batch/repositories/item_repository.py:274-673 | once an item was claimed again, failing, renewing or releasing it under the older epoch changes nothing, whenever it arrives |
| CompletionRuns.OneMissingCompletesNothing | src/batch/repositories/item_repository.py:192-272 | one entry without an epoch, of a missing or locked item, or not held under its claim, and the call completes nothing |
| CompletionRuns.OwnedItemsComplete | src/batch/repository.py:783-808 | a completion of owned, distinct items that commits answers "completed", stores each cost with its item, and gives each item the row made for it, due at once and without attempts |
| CompletionRuns.AnswerIsForever | src/batch/repository.py:809-818 | after "completed" or "already completed" every listed item stays completed, unchanged, with the same row and payload, in every later state |
| CompletionRuns.CompletionIsSafeIff | src/batch/repositories/item_repository.py:192-272 | items and rows stay matched if and only if no item is listed twice, or not all are owned, or nothing was committed |
| CompletionRuns.ARepeatedItemLosesItsRow | src/batch/repositories/item_repository.py:192-272 | one owned item listed twice is completed without an outbox row, and its worker is told that it was not owned |
| CompletionRuns.EveryRunBillsRight | src/batch/completion_outbox.py:188-235 | under the whole protocol, with other services charging and resetting, every counter is the sum of what was logged since its last reset |
| CompletionRuns.EveryItemIsChargedOnce | src/batch/completion_outbox.py:109-235 | in every run an item is charged at most once, only if completed; exactly once if its row was sent with an API key, and then at the cost stored with the item; never without a key |
| CompletionCharges.EventsCarryPayloads | src/batch/completion_outbox.py:188-235 | in every run the event of a completion has the key, user, team, organization, model and cost of its payload, each under its own name |
| CompletionCharges.DeliveryCharges | src/batch/completion_outbox.py:188-235 | a committed delivery raises exactly the counters of the payload's key, user, team, organization and team-model, by its cost if positive, the first time and only with a key |
| CompletionCharges.LoggedChargesPay | src/billing/spend.py:106-160 | in every run each logged charge of a completion costs every counter exactly what its payload makes that counter pay, so the counters are sums of payload costs |
| CompletionWorkers.PersistIsSound | src/batch/worker_persistence.py:170-238 | two attempts with arbitrary interference are a run of the protocol, and success means that all items are completed with their rows |
| CompletionWorkers.ReportsIff | src/batch/worker_persistence.py:177-204 | the first attempt that gets a reply decides: success is reported exactly when all items are then completed with their rows, which is exactly when each was owned and unlocked before, or all were completed already |
| CompletionWorkers.AllRaisedGivesBack | src/batch/worker_persistence.py:206-238 | when every attempt raised, failure is reported and each listed item still held under its claim, and within its deadline, is pending and unlocked again; if the release raises or an epoch is missing, nothing changes |
| CompletionWorkers.LostReplyIsRecognised | src/batch/worker_persistence.py:177-204 | when the first attempt committed and its reply was lost, the second attempt reports success, whatever happened in between |
| CompletionWorkers.CommittedIsSent | src/batch/completion_outbox.py:109-186 | a held record whose delivery was committed ends as sent, also when the reply was lost and the worker then tries to retry or give up |
| CompletionWorkers.StillHeldIff | src/batch/completion_outbox.py:115-157 | after an exception the worker still holds the record if and only if it held it just before marking it and the marking raised before its commit; a marking that commits abandons a held record exactly when its attempts are used up, and otherwise retries it after the first delay times the attempts made, at most the longest delay |
| CompletionWorkers.CompletionStore.MarkItemsCompletedBulk | src/batch/repositories/item_repository.py:192-272 | all or nothing: the items change only if every entry is owned and unlocked; the answer also needs distinct items |
| CompletionWorkers.CompletionStore.EnqueueCompletionOutboxMany | src/batch/repositories/completion_outbox_repository.py:55-108 | a row is skipped when its item has one, and the number of inserted rows is returned |
| CompletionWorkers.CompletionStore.CompleteItemsWithOutboxBulk | src/batch/repository.py:773-827 | the transaction: items and rows together, or nothing when it raises before its commit |
| CompletionWorkers.CompletionStore.PersistCompletionRowsWithOutbox | src/batch/worker_persistence.py:170-238 | the two-attempt loop and the final release compute exactly `Persist` |
| CompletionWorkers.CompletionStore.ClaimCompletionOutboxDue | src/batch/repositories/completion_outbox_repository.py:110-164 | every due row chosen is processing under the worker with one attempt more and its record handed out, every other row is unchanged, and no other record is handed out |
| CompletionWorkers.CompletionStore.RecordDurableSuccess | src/batch/completion_outbox.py:164-235 | once committed, the event of a keyed payload exists, and the row is sent exactly if it was held; nothing changes when it raises before its commit |
| CompletionWorkers.CompletionStore.ProcessRecord | src/batch/completion_outbox.py:109-162 | delivery, then after an exception the marking, which may raise as well, with interference in between, is a run of the protocol; delivered exactly when the delivery committed on a held row |
| SpendLedger.IncrementRowsAt | src/billing/ledger.py:15-70 | the four table updates add the cost to exactly the accounts of the charge, and change nothing else |
| SpendLedger.ChargedAccounts | src/billing/ledger.py:15-94 | a charge is for the counters of its own key, user, team and organization, and of its team with its model |
| SpendLedger.LedgerStore.IncrementSpend | src/billing/ledger.py:15-94 | nothing for a cost that is not positive, otherwise the four accounts and the team-model counter |
| SpendLedger.LedgerStore.LogSpendOnce | src/billing/spend.py:106-160 | inserts and charges once for each event identifier; a duplicate changes nothing |
| SpendLedger.LedgerStore.CheckBudgetReset | src/billing/budget.py:159-255 | the row is reset only if its reset time is still the one read; the caller gets the reset entity, the row another resetter wrote, or what it had |
| SpendLedger.FixedBudgetIsPlanned | src/billing/budget.py:159-191 | a due budget of hours or days is reset to the least start plus k times its 3600 or 86400 seconds an amount, k >= 1, after now, and gets no plan only if no date lies that late |
| SpendLedger.MonthlyBudgetIsPlanned | src/billing/budget.py:159-191 | a due budget of months is reset to the first period after now, on its anchor day or the day of its reset date, clamped to the month; the inferred anchor is planned with it; no plan only past the last year |
| SpendLedger.NoPlanUnlessDue | src/billing/budget.py:159-171 | without a period or a reset time, or before that time, there is no plan |
| BillingRuns.EveryRunCounts | src/billing/spend.py:149-160 | under every interleaving of logging and racing resetters, an account's counter is the sum of positive costs since its last reset, a team-model's counter the sum of all, and an event is charged exactly when it was inserted |
| BillingRuns.EveryRunResetsOnce | src/billing/budget.py:196-255 | the resets of an account form a chain strictly forward in time ending at its reset time, and no reset time is reset from twice |
| BudgetSchedule.EveryRunKeepsSchedule | src/billing/budget.py:173-251 | no drift: an account with a monthly budget is reset only to its first date plus whole periods, clamped to the month end, whatever stale rows the racing checkers had read |
| BudgetCalendar.AddMonthsLands | src/billing/budget.py:359-373 | adding months lands in the month counted, keeps the time, clamps the anchor day, without an anchor keeps a month end one and clamps any other day, and fails exactly outside the calendar |
| BudgetCalendar.AnchoredMonthsCompose | src/billing/budget.py:359-369 | with an anchor day two additions are one |
| BudgetCalendar.AnchorFromStart | src/billing/budget.py:173-177 | the anchor day inferred from a reset date reproduces that date |
| BudgetCalendar.UnanchoredMonthsCompose | src/billing/budget.py:359-373 | without an anchor two additions are one if and only if the start is a month end, or the month between is long enough, or the final month clamps as well |
| BudgetCalendar.UnanchoredMonthsDrift | src/billing/budget.py:359-373 | January 30 drifts to March 31 through February 28 |
| BudgetCalendar.LineIsMonotone | src/billing/budget.py:332-340 | the order of dates is the order of microseconds since the start of the calendar |
| BudgetCalendar.MonthLengths | src/billing/budget.py:359-373 | the twelve month lengths, February by the leap year rule |
| BudgetCalendar.YearsAreGregorian | src/billing/budget.py:359-373 | the days before each year are those of the 400-year rule |
| BudgetCalendar.AddTimeLands | src/billing/budget.py:332-340 | adding a time span moves by exactly that span, and fails only past the last year |
| BudgetCalendar.FixedResetIsLeast | src/billing/budget.py:332-340 | the fixed-step reset is the least positive multiple of the step after the start that is later than now |
| BudgetCalendar.GuessBrackets | src/billing/budget.py:343-352 | the jump estimate is at most one period short and never too far |
| BudgetCalendar.MonthResetIsLeast | src/billing/budget.py:343-356 | the monthly reset is the least k >= 1 periods after the start that is strictly later than now, in every month length and leap year |
| BudgetCalendar.NextMonthResetAfter | src/billing/budget.py:343-356 | the correction loop runs at most once and finds that reset |
| BudgetCalendar.NextResetIsLater | src/billing/budget.py:274-303 | every reset computed is a valid date strictly after now |
| Apportionment.AllocateProportionalInts | src/batch/embedding_microbatch.py:156-181 | the loops compute exactly `Allocation` |
| Apportionment.AllocationIsExact | src/batch/embedding_microbatch.py:156-181 | the parts sum to the total, for all weights |
| Apportionment.AllocationIsNearQuota | src/batch/embedding_microbatch.py:160-181 | each part is the floor or the ceiling of its quota, and a zero weight gets zero when some weight is positive |
| Apportionment.AllocationIsMonotone | src/batch/embedding_microbatch.py:160-181 | a larger weight never gets less |
| Apportionment.AllocationIsOptimal | src/batch/embedding_microbatch.py:160-181 | among all integer vectors with the same sum it minimises the sum of squared distances from the quotas |
| UsageAllocation.AllocateEmbeddingUsage | src/batch/embedding_microbatch.py:86-153 | each item's record has the reported counts under their own names, each within one of its share by the item's weight (cached counts by prompt counts), and the total as prompt plus completion when that is the reported total or none was |
| UsageAllocation.RowFollowsWeights | src/batch/embedding_microbatch.py:86-153 | the same of every allocated row, for all reported usages and weights |
| UsageAllocation.LargerWeightsGetMore | src/batch/embedding_microbatch.py:86-153 | a larger positive weight never gets fewer prompt, completion or total tokens, nor more prompt tokens fewer cached ones |
| UsageAllocation.NormalizedIsEffective | src/batch/embedding_microbatch.py:165-168 | the weights that count are the given ones with negative ones as zero, or all one if none is positive |
| UsageAllocation.ColumnsAreExact | src/batch/embedding_microbatch.py:86-153 | each column sums to its aggregate count |
| UsageAllocation.CachedWithinPrompt | src/batch/embedding_microbatch.py:100-153 | an item's cached tokens never exceed its prompt tokens when that holds in aggregate |
| UsageAllocation.TotalsAddUp | src/batch/embedding_microbatch.py:113-153 | an item's total is its prompt plus its completion when it does in aggregate, or when no total was reported |
| CompletionCost.CostIsLinear | src/billing/cost.py:123-159 | with cached at most prompt, a cost is linear in uncached, cached and completion tokens plus the request fee |
| CompletionCost.PromptTokenCosts | src/billing/cost.py:141-155 | one more prompt token costs the input price, unless cached tokens outnumber the prompt |
| CompletionCost.CachedTokenCosts | src/billing/cost.py:141-155 | one token more that is cached costs the price for cached tokens, if there is one, instead of the input price |
| CompletionCost.CompletionTokenCosts | src/billing/cost.py:141-158 | one more completion token costs the output price, or on a cache hit the price for that, if there is one |
| CompletionCost.FeeOnly | src/billing/cost.py:141-158 | without tokens a completion costs the request fee, and an unpriced model always nothing |
| CompletionCost.BatchMultiplies | src/billing/cost.py:77-120 | with a multiplier alone every batched completion costs that multiple of its synchronous price, fee included, and nothing for a negative one |
| CompletionCost.BatchReplaces | src/billing/cost.py:77-120 | batch prices given by name replace the plain input and output prices only, whatever the multiplier |
| CompletionCost.TiersAgree | src/billing/cost.py:77-137 | without batch prices the tiers agree, and batch information never changes the synchronous price |
| CompletionCost.SplitPreservesBill | src/billing/cost.py:123-159 | the rows allocated to n items cost the aggregate plus n-1 request fees, in both tiers |
| CompletionCost.RoundedBillIsClose | src/billing/cost.py:157-159 | with every cost rounded to ten places the gap is at most (n+1)/2 units of the last place |
| ChatSplitter.SplitCandidates | src/batch/chat_worker_execution.py:391-426 | the loop yields exactly the chunks and fallbacks of the greedy cut |
| ChatSplitter.BlocksCut | src/batch/chat_worker_execution.py:391-426 | the greedy blocks put together are the candidates in order; each is within both caps or a single candidate |
| ChatSplitter.SplitIsMinimal | src/batch/chat_worker_execution.py:391-426 | no order-preserving cut within both caps has fewer blocks than chunks and fallbacks together |
| ChatSplitter.SplitPlacesOnce | src/batch/chat_worker_execution.py:391-426 | every candidate is in exactly one chunk or fallback |
| ChatSplitter.FallbackReasons | src/batch/chat_worker_execution.py:391-426 | a candidate falls back for the token limit exactly when it is over the limit by itself |
| ChatSplitter.PlannedChunkIsAccepted | src/batch/chat_worker_execution.py:350-369 | under a validated configuration a planned chunk, or any part of it, is refused by its deployment only for want of an executor |
| ChatSplitter.AcceptedIff | src/batch/chat_worker_execution.py:350-369 | an executor is refused exactly for its mode, the chunk's size or tokens, or for want of one |
| ChatSplitter.EstimateInputTokens | src/batch/chat_batching.py:77-86 | a quarter of the characters, rounded up, and at least one |
| ChatPlanner.GroupsAreFilters | src/batch/chat_worker_execution.py:992-1046 | a group holds exactly the items with its key, in their order |
| ChatPlanner.PlanChatUnits | src/batch/chat_worker_execution.py:991-1064 | the grouping loops compute exactly `PlanUnits` |
| ChatPlanner.PlanConservesItems | src/batch/chat_worker_execution.py:991-1064 | every prepared item is in exactly one work unit |
| ChatPlanner.PlannedChunksAreSound | src/batch/chat_worker_execution.py:1008-1064 | every chunk has one deployment and one group key, at least two items, and its deployment accepts it |
| ChatPlanLaws.PlanIsMinimal | src/batch/chat_worker_execution.py:991-1064 | the items that share a deployment with an executor and a group key are planned into no more units than any cut of them, in order, into blocks that the deployment's configuration allows |
| ChatPlanLaws.ChunksKeepLimits | src/batch/chat_worker_execution.py:1008-1064 | every chunk keeps the size and token limits written in its deployment's configuration, which is for microbatches and has an executor |
| ChatPlanLaws.SinglesRunAsConfigured | src/batch/chat_worker_execution.py:1008-1046 | every single item runs in the mode configured for its deployment, or as its fallback when that is microbatches |
| ResultNormalizer.NoIndexIsMissing | src/batch/chat_batching.py:167-169 | by pigeonhole, n rows with different indexes below n leave none out, so the final check cannot fire |
| ResultNormalizer.PlaceRows | src/batch/chat_batching.py:141-169 | succeeds exactly on bijections, puts each value at its index, and otherwise reports the first offending row |
| ResultNormalizer.ReorderingPlacesTheSame | src/batch/chat_batching.py:141-169 | a reordered response is accepted as well and gives the same rows |
| ResultNormalizer.ValidateEmbeddingResponse | src/batch/embedding_worker_execution.py:124-159 | accepts exactly n objects with an embedding and different plain integer indexes below n, and puts each one's content at its index |
| ResultNormalizer.ResultIndexIsUnanimous | src/batch/chat_batching.py:186-229 | a chat row names index i if and only if it says so at least once, and its item index, its index (integers or their texts) and the last position of its identifier, as far as given, all are i |
| ResultNormalizer.NormalizeChatResults | src/batch/chat_batching.py:127-169 | accepts exactly the responses whose rows say different indexes below n; result i holds the body and usage of the row that says i, and an error exactly if that row reports one or lacks either |
| ResultNormalizer.DifferentIdsAreFound | src/batch/chat_batching.py:140-140 | when the identifiers differ, each names its own position |
| GroupRetry.RequeueMakesProgress | src/batch/embedding_worker_execution.py:311-340 | a group requeue raises each item's retry count, never raises its cap, and lowers it below the group's size once the retries are used up |
| GroupRetry.RequeueRecords | src/batch/embedding_worker_execution.py:311-340 | a requeue records one failure more than the most of its items, the largest original size, and its own size while retries are left, afterwards the least size above the scaled one, which is smaller |
| GroupRetry.ScaledByFactor | src/batch/embedding_worker_execution.py:206-208 | the size scales by the factor, which counts as zero below zero and as one above one |
| GroupRetry.NotReducedIff | src/batch/embedding_worker_execution.py:206-212 | exactly when there is no smaller size |
| GroupRetry.ChainsAreShort | src/batch/embedding_worker_execution.py:311-340 | consecutive group requeues of an item are at most the retries left plus the size it may be grouped in, and once the retries are used up only groups above the least size are requeued |
| Utf8.DecodeEncode | src/batch/storage.py:137-157 | decoding undoes encoding |
| Utf8.RfcExamples | src/batch/storage.py:137-157 | characters of one to four bytes encode as in the examples of section 7 of RFC 3629 |
| Utf8.EncodeDecode | src/batch/storage.py:137-157 | what decodes is the encoding of the result |
| Utf8.NewlineOnlyInNewline | src/batch/storage.py:132-137 | the newline byte occurs only in the encoding of a newline |
| LineReader.IterLines | src/batch/storage.py:123-146 | however the bytes are cut into chunks, the lines yielded, and the line number of a too-long or undecodable line, are those of the whole content |
| LineReader.LinesExplain | src/batch/storage.py:123-146 | for all content: the lines read, written again, are a prefix of it, each within the limit; all of it when reading finishes, and otherwise what follows starts with a line over the limit or not UTF-8, whose number the error names |
| LineReader.WriteLines | src/batch/storage.py:148-166 | one chunk for each line; together they are the encoded lines with their newlines |
| LineReader.RoundTrip | src/batch/storage.py:123-166 | what was written is read back if and only if no line holds a newline or is longer than the limit |
| LineReader.WrittenThenRead | src/batch/storage.py:123-166 | the same through every chunking of the stored bytes |
| StreamCache.EveryStreamIsSound | src/cache/streaming.py:26-105 | in every reachable state the counters equal the buffer's contents and stay within the limits, and a disabled stream holds nothing |
| StreamCache.StoredIffComplete | src/cache/streaming.py:49-125 | a response is built if and only if the stream had data, no line was invalid and all its text fits; then it holds all the text and the last finish reason |
| StreamCache.ResponseDescribes | src/cache/streaming.py:49-125 | a response has the first identifier, date and model that the stream gave and the last usage, and the stand-ins for what it never gave |
| StreamCache.DisabledByTheLine | src/cache/streaming.py:49-106 | a stream is disabled by the first line that spoils it, for that line's reason; the byte limit counts the UTF-8 bytes of the whole text |
| StreamCache.PiecesJoin | src/cache/streaming.py:231-252 | splitting a text at spaces and giving all words but the last their space back loses nothing |
| StreamCache.WordsHaveNoSpace | src/cache/streaming.py:231-240 | the words that a text is split into hold no space |
| StreamCache.ReplayHasAChunkPerWord | src/cache/streaming.py:231-263 | a replay has one chunk for each word, describing the response, and the end marker; only the last chunk says why the text ends |
| StreamCache.ReplayRebuilds | src/cache/streaming.py:231-263 | replaying a complete response into a fresh accumulator rebuilds identifier, date, model, text and finish reason if and only if its words fit the limits |
| StreamCache.BuiltIsComplete | src/cache/streaming.py:108-125 | what the accumulator builds is complete in that sense |
| StreamCache.StreamAccumulator.AddChunk | src/cache/streaming.py:49-106 | the in-place update of one accumulator |
| StreamCache.StreamingCacheHandler.AddChunkFromLine | src/cache/streaming.py:169-193 | only the named stream changes, and it is counted as disabled once |
| StreamCache.StreamingCacheHandler.FinalizeAndStore | src/cache/streaming.py:195-220 | the stream is forgotten; its response is stored, unless it is incomplete or the write fails |
| StreamRuns.EveryStateIsItsLines | src/cache/streaming.py:163-223 | over any interleaving of starts, lines, finishes and discards, a stream's state is that of the lines added under its identifier since its last start |
| StreamRuns.StreamIsOwnIff | src/routers/chat.py:169-196 | with the cache key as identifier, the lines of a stream are exactly those of one request if and only if it sent no line before the stream's last start or end, and each line after that is its own exactly when that was a start |
| StreamRuns.FinishingStores | src/cache/streaming.py:195-220 | finishing stores all the text since the last start exactly if it is valid and fits, and that is the request's own text when it has the stream to itself |
| StreamRuns.OnlyFinishingStores | src/cache/streaming.py:195-223 | nothing but the end of a stream stores anything, and only under its own key |
| StreamRuns.UndisturbedStoresItsText | src/routers/chat.py:169-196 | a request whose start and finish enclose no other event under its identifier stores its own text, or nothing when it is invalid or does not fit |
| StreamRuns.TwoRequestsMix | src/routers/chat.py:169-196 | two requests under one identifier: the second start drops the first one's text, later text is mixed, and the text stored is neither request's |
| StreamRuns.Serve | src/cache/streaming.py:163-223 | the handler in place computes exactly these states and stored responses for every sequence of events |
| ArtifactPages.IterBatchItems | src/batch/worker_artifacts.py:416-433 | keyset pages of any size visit every item once, in line order |
| ArtifactPages.WritingEndsIff | src/batch/worker_artifacts.py:435-470 | writing ends invalid if and only if it meets a completed item that cannot be serialized before any read or write fails, and well if and only if nothing fails and no such item is wanted |
| ArtifactPages.WriteRows | src/batch/worker_artifacts.py:435-448 | rows are validated and written one by one: the loop ends as `WritingEnds` says, and a good end has written exactly the rows |
| ArtifactPages.RowsSplitTerminalItems | src/batch/worker_artifacts.py:435-448 | each terminal item has a row in exactly one artifact, any other item in none |
| ArtifactPages.RowsAscend | src/batch/worker_artifacts.py:435-448 | both artifacts list their rows in line order, none twice |
| ArtifactPages.AllRowsCounted | src/batch/worker_artifacts.py:435-448 | when all items are terminal the two artifacts together have one row for each item |
| ArtifactFinalizer.FailureIsAtomic | src/batch/worker_artifacts.py:450-531 | after a failed call everything stored is gone unless its deletion failed, and so is every record but one whose creation was committed and then raised; what was there before is untouched |
| ArtifactFinalizer.SuccessAttaches | src/batch/worker_artifacts.py:450-539 | on success nothing is deleted, and the attached files hold exactly the output and error rows |
| ArtifactFinalizer.SuccessCloses | src/batch/worker_artifacts.py:303-310 | a success closes the leased job: cancelled if requested, else failed if an operator said so or nothing completed and something failed, else completed; unlocked, with the files its counters ask for, and otherwise unchanged |
| ArtifactFinalizer.StatusReflectsItems | src/batch/worker_artifacts.py:303-310 | with right counters a batch that nobody stopped fails exactly when some item failed and none completed |
| ArtifactFinalizer.EveryTerminalItemIsReported | src/batch/worker_artifacts.py:416-531 | after a successful call with right counters every terminal item has its row in the attached file for its status, and no other item has one |
| ArtifactFinalizer.LosesArtifactsIff | src/batch/worker_artifacts.py:516-531 | with working deletions a failed call ends a job without the artifacts it wanted if and only if the attaching statement was committed and then raised; the job never points to anything missing |
| ArtifactFinalizer.DanglesIff | src/batch/worker_artifacts.py:396-414 | after a failed call the job points to a missing object if and only if the attaching statement was committed and raised, and an attached object was deleted while the deletion of its record failed |
| ArtifactFinalizer.ALostReplyLosesTheOutput | src/batch/worker_artifacts.py:516-531 | one completed item and a lost reply: the job is completed without its output |
| ArtifactFinalizer.AStuckRecordDangles | src/batch/worker_artifacts.py:396-414 | the same with a record that cannot be deleted: the job points to a deleted object |
| ArtifactFinalizer.InvalidIff | src/batch/worker_artifacts.py:435-470 | a call fails validation exactly when it wants output and meets a completed item that cannot be serialized before any read or write fails, and then changes nothing |
| ArtifactFinalizer.EndsOneWay | src/batch/worker_artifacts.py:353-394 | a leased job's call ends finalized, permanently failed (only if validation failed and that was recorded), retry requested, or escaped because that request raised, each under its exact condition |
| ArtifactFinalizer.EndsMean | src/batch/worker_artifacts.py:312-394 | finalized attaches the files, permanently failed attaches nothing and keeps everything else, and a retry leaves the job finalizing and unlocked unless a reply was lost |
| ArtifactFinalizer.AnEarlyFailureIsRetried | src/batch/worker_artifacts.py:353-394 | a good item, one that cannot be serialized, and a storage that cannot be opened: the job is retried, not failed for good |
| ArtifactWorkers.ArtifactWorker.FinalizeArtifacts | src/batch/worker_artifacts.py:450-531 | the in-place attempt, row by row, and its cleanup, with references cleared as records are deleted; the kind of failure is that of the first thing that went wrong; deletion is attempted for everything the attempt stored or recorded, and for nothing on success |
| ArtifactRuns.AloneIsAttempt | src/batch/worker_artifacts.py:450-531 | the statements of a call without interference do what the one-call attempt does, and start the cleanup of exactly what it knows of after a failure |
| ArtifactRuns.AtMostOneAttaches | src/batch/repositories/job_repository.py:4270-4317 | over any race of attempts through expired leases and crashes at most one attaches its files, and only one can report success |
| ArtifactRuns.SuccessLasts | src/batch/worker_artifacts.py:450-539 | after a success the job points to its files, with all their rows, at every later moment, whatever other attempts write and clean up |
| ArtifactRuns.NoObjectLeaks | src/batch/worker_artifacts.py:396-414 | once no attempt is running, every object left was there before, is attached by the one success, could not be deleted, or was left by a crash |
| ArtifactRuns.NoRecordLeaks | src/batch/worker_artifacts.py:396-414 | the same for file records, or the reply of the record's creation was lost |
| DeepMerge.MergeInto | src/config_runtime/loader.py:13-22 | the key loop computes exactly `Merge`, in any order of keys |
| DeepMerge.MergeNothing | src/config_runtime/loader.py:13-22 | the empty map is an identity on both sides |
| DeepMerge.MergeAbsorbs | src/config_runtime/loader.py:13-22 | an override applied twice is applied once |
| DeepMerge.MergeDecides | src/config_runtime/loader.py:13-22 | at any path the override decides where it has a value, two maps merge, and a leaf of the override hides what is below it |
| DeepMerge.CoveredIffIgnored | src/config_runtime/loader.py:13-22 | a base adds nothing if and only if the override covers all its paths |
| DeepMerge.AssociativeIff | src/config_runtime/loader.py:13-22 | merging is associative if and only if, wherever a leaf in the middle separates two maps, the last map covers the first |
| DeepMerge.NoLeafIsCompatible | src/config_runtime/loader.py:13-22 | merging is associative in particular when no path holds a map, then a leaf, then a map |
| DeepMerge.NotAlwaysAssociative | src/config_runtime/loader.py:13-22 | a map, a leaf and a map under one key merge differently from the left and from the right |

## Left out

- An exception that escapes a running work unit and aborts the whole task group: runners here finish what they run.
- Schedulers, router, failover, rate limits, cache backends, HTTP, metrics, logging and configuration loading.
- Policy leases (parallel slots) of items, which some lease-loss paths do not release.
- `log_spend`, which is not exactly-once: only the transactional `log_spend_once` is modelled.
- Deletion or manual editing of rows and jobs by administrators, apart from failing and requeueing items.
- The retention worker (`src/batch/cleanup.py:95-125`, `src/batch/repositories/maintenance_repository.py:90-107`), which deletes ended jobs with their items once they expire, and expired files nothing refers to: "at every later moment" in `ArtifactRuns.SuccessLasts`, `CompletionRuns.RunIsLater` and `CompletionRuns.AnswerIsForever` means until then.
- The completion of a single item without an outbox row (`mark_item_completed`), which no worker calls.
- Creation of batches: the items of a run exist from its start.
- Floating point: costs and scale factors are exact reals; rounding to ten places is any nearest multiple.
- The lookup of a model's price and the parsing of durations: prices and durations are parameters.
- The usage in replayed streams: the replayed chunks carry none.
- JSON encoding and the HTTP form of responses: parsed values are given; error texts are not compared.
- The order of keys in merged configuration maps.
- FailureIsAtomic: the cleanup runs after exceptions only; a cancellation skips it, like a crash, and what that leaves is stated by `ArtifactRuns.NoObjectLeaks` and `ArtifactRuns.NoRecordLeaks`.
- A storage write that leaves a partial object behind when it fails, and a cache write that raises after storing.
- PersistIsSound: interference of others is at the granularity of whole statements, as the database gives it.
- IterLines: decoding a line is strict UTF-8, with the error reported as the line number rather than as an exception object.
- MergeInto: a copy and its original are the same value, so the absence of sharing is not stated.
- The chat preparation runners, which only collect prepared items before the grouping starts.
