# Verification model of the anti-ban dosing protocol

This project models the orchestrator's message dosing protocol and proves what it keeps in every
reachable state: how a campaign's targets are dosed to sender accounts under daily and pacing
limits, published through the outbox, moved by worker results, retried, and finally replied to.

`dafny verify dfyconfig.toml` checks everything.

## How the model is built

**Tables as values** (`domain.dfy`, `settings.dfy`, `unsubscribe.dfy`, `tables.dfy`). A `Db` holds the rows of targets,
campaigns, accounts, daily usage, quotas, outbox, blocks, chat mappings and replies. Each repository
call is one function from `Db` to `Db`; an error returns the same tables, as the rolled-back
transaction does. Instants are microseconds; a local date is the date at a fixed UTC offset.

**Tables as they are changed** (`repository.dfy`). `PostgresRepository` is a class with one mutable
field per table. Its methods follow the calls' statements, guards and row counts, and each is proved
equal to its table function on the snapshot before the call, including which calls return an error.

**The protocol** (`protocol.dfy`). Any number of dosers, the result consumer, status callbacks, the
scheduler, stops and a clock interleave at the grain of one repository call. A doser between two
calls remembers exactly what the code's local variables remember: the accounts it listed, the quota
row it read, the target it selected. A step may be taken whenever the code could take it, at any
point a call may fail and the tick be abandoned, and every theorem below about "every run" quantifies
over every such sequence of steps from freshly uploaded campaigns. A log records doses, retry
decisions, exhausted retries, cooldowns and slot reservations; no step reads it.

**The workers as they run** (`environment.dfy`, `doser.dfy`, `flush.dfy`, `scheduler.dfy`, `outbox.dfy`,
`blocklist.dfy`). The doser, result consumer, scheduler, outbox worker and blocklist cache are classes
whose methods make the calls in the code's order. Doser ticks, flushes and scheduler checks call the
mutable repository while an arbitrary sequence of other steps runs between any two of their calls. An
`Environment` records in its trace the protocol run that led to the present tables; a tick, a flush or a
check only ever continues that trace, so that the theorems about runs hold of the tables it leaves and
across it. What the database serves, which rows are locked and what is drawn at random are parameters.

**Dosing and publication together** (`pipeline.dfy`). The protocol, the outbox worker message by message and
the blocklist's writers run on the same tables, so that attempts, rows and deliveries are counted as one.

**Safety over whole runs** (`conservation.dfy`, `attempts.dfy`, `spacing.dfy`, `pacing.dfy`,
`warm.dfy`, `accounts.dfy`, `lifecycle.dfy`, `completion.dfy`, `counters.dfy`), with `counting.dfy`,
`frames.dfy`, `phases.dfy` and `runs.dfy` beneath them. `faults.dfy` names the reports that break a law,
`redosing.dfy` shows the breach on a run. **Laws by the columns** (`columns.dfy`, `verdicts.dfy`, `replies.dfy`) say what
a call, a failure report and a reply read from and leave in the stored columns, the codes' texts and the configured
numbers, without the functions that the other parts share. **Laws of the parts** are in `results.dfy`, `ordering.dfy`,
`consumer.dfy`, `publishing.dfy`, `roundrobin.dfy` and `ticks.dfy`.

## What the code does not quite promise

The model follows the code where it differs from what its comments say. Each point below is a lemma
that says exactly when the intended behaviour holds.

- Statuses `pending` and `retry_pending` belong to the orchestrator, but an HTTP callback that says
  `retry_pending` with a final code or none is written, as is `pending` from a callback
  (`Results.CallbackReopensExactly`) or from a result (`Results.ConsumerReopensExactly`). An error status is
  always written, even over `replied`. Four laws can therefore be broken by a report, each by one kind of
  report only, and a law holds in every state of a run exactly when no step commits its fault
  (`Faults.RunSoundExactly`):
  attempts stay within their bound unless `retry_pending` is reported of a target, pending or in error,
  whose attempts are used up (`Overrun`); a target waiting for a further attempt has its time set unless
  `retry_pending` is reported of a dosed one, pending or in error, without a next attempt time (`Release`);
  a settled target stays settled unless `pending` or `retry_pending` is reported of it while in error
  (`Reopen`); and the targets of a completed campaign stay replied unless an error is reported of one (`Erase`).
  "Bounded attempts", "settled for ever" and "completion means replied" are stated for runs without their own
  fault, "no duplicate dosing" for runs without an early release; all other laws hold of all runs.
- No duplicate dosing has a finer condition than `Release`. A target's doses stay apart throughout a run exactly when
  no report releases it too early, that is, while no retry decision ends its history or RetryDelay has not
  passed since that decision (`DoseSpacing.RunSpacingExactly`). A released target can be dosed at once
  (`Redosing.ReleasedIsDosedAgain`), and that dose keeps the spacing exactly when the release was not too early
  (`Redosing.ReleasedDoseSpacedExactly`). Whether a report commits `Release` can be read off the stored row, and
  a run without one releases nothing too early (`DoseSpacing.ReleaseFreeIsPunctual`). On a concrete run from freshly
  uploaded campaigns a target is dosed twice in a row and beyond its attempts (`Redosing.DuplicateDoseHappens`).
- RegisterReply counts the replied targets and completes the campaign in two statements of one
  transaction at the default isolation level, so an error status committed in between can complete a campaign that has an unreplied
  target. The model takes every repository call as one atomic step; the count still holds at the completion
  if no error is reported for a target of the campaign in between (`Completion.CountStaysTrue`).
- Notifications are best effort. A flush acknowledges its deliveries first and then returns from the
  notification phase when its context is cancelled, and skips a task whose channel or queue cannot be
  had. Every group gets all it is due exactly when neither happens (`Consumer.GroupsNotifiedExactly`). The last flush
  after a cancellation settles and acknowledges the batch and notifies nobody
  (`Consumer.ShutdownLosesNotifications`).
- A deferral without accounts uses the tick's clock reading. It moves no attempt forward in time
  exactly when the database clock has not passed the window opening it computed
  (`DoseSpacing.DeferralPostponesExactly`). The retry delay holds regardless.
- `delivered` redelivered to a target that is already viewed or replied is counted again, and only
  then (`Results.DeliveredCountedTwiceExactly`); so processed_count bounds the delivered targets from above.
- The retry delay runs from the failure handler's clock reading, not from the commit of its update.
- The claim does not check the campaign's status again, so up to one row per doser with a selected
  target can follow a stop (`Lifecycle.StopIsEffective`).
- Account usage is counted under the UTC date, while listing looks up the local date. Where they
  differ a listed account may have no slot left and the claim is refused (`Ticks.ListedAccountsMayLackSlots`);
  the daily limit itself is never exceeded.
- The consumer caches a block under the target's phone, while the table blocks the reply's phone. The
  cached block is persisted exactly when these agree or it was blocked before (`Consumer.CachedBlockIsPersistedExactly`).
- A target whose chat mapping has an empty chat id is selected neither as warm nor as cold, and no other
  eligible target is missed (`Repository.WarmAndColdSplit`).
- A refresh drops from the cache every block persisted after it loaded the table, even one already
  cached (`Blocklist.RefreshStoresWhatItLoaded`).
- The outbox worker looks the recipient up before it publishes; a block cached in between does not stop
  the message (`Outbox.FiltersHold`).
- The scheduler formats the start time of a draft it starts, which a draft with start_immediately need
  not have (`internal/worker/scheduler.go:83`); UploadCampaign creates no such draft.

## Model

| member | source | states |
|---|---|---|
| Conservation.TripleEntry | internal/repository/anti_ban.go:227-294 | in every reachable state each target's outbox rows equal its attempt_count, each account's rows of a UTC date equal its used_count, and both totals equal the number of outbox rows, whatever dosers and results interleave |
| DoseSpacing.NoDuplicateDosing | internal/repository/anti_ban.go:236-247 | between any two doses of one target lies a retry decision, and the later dose comes at least the configured retry delay (15 minutes where that is below one) after the clock reading of that decision, along every run on which no report releases the target too early |
| DoseSpacing.StepSpacingExactly | internal/repository/anti_ban.go:171-177 | a step keeps a target's doses apart if and only if it does not release it while no retry decision that is RetryDelay old ends its history |
| DoseSpacing.RunSpacingExactly | internal/repository/anti_ban.go:171-177 | a target's doses are kept apart in every state of a run if and only if no report of the run releases it too early |
| DoseSpacing.ReleaseFreeIsPunctual | internal/repository/postgres.go:292-310 | a run that never reports retry_pending of a dosed target without a next attempt time, pending or in error, releases nothing too early |
| DoseSpacing.DosesAreRows | internal/repository/anti_ban.go:269-292 | the logged doses of a target are exactly its outbox rows, so the spacing law speaks of rows |
| DoseSpacing.DeferralPostponesExactly | internal/repository/anti_ban.go:547-560 | deferral never makes an attempt earlier if and only if the database clock has not passed the computed window opening |
| ColdPacing.ColdPacingBound | internal/repository/anti_ban.go:562-584 | per tenant and date the reserved times lie in the work window, successive ones are at least the minimum interval apart, their number is cold_used, at most the drawn limit, and fits ceil(window / interval) |
| ColdPacing.ColdPacingByClock | internal/worker/campaign_doser.go:100-111 | in every reachable state each reservation was taken while the local clock stood between the configured opening and closing time of its date, at least the configured minimum of minutes after the previous one, and the limit lies between the two configured ones |
| ColdPacing.ColdRowsWithinQuota | internal/worker/campaign_doser.go:217-241 | cold outbox rows of a tenant and date never exceed cold_used, although reservations whose claim fails are lost |
| WarmQuota.WarmQuotaBound | internal/worker/campaign_doser.go:85-98 | with k dosers warm_used never exceeds LimitWarmDaily + k - 1, and warm rows never exceed warm_used plus dosers between claim and count plus counts that were lost to errors |
| AttemptLimits.SettledForever | internal/repository/anti_ban.go:416-428 | a target in one of the seven settled statuses stays settled, keeps its attempts and gets no further outbox row, along every run that does not reopen it from an error status |
| AttemptLimits.DosesSpendBudget | internal/repository/anti_ban.go:269-277 | every step lowers the sum of (maxAttempts - attempt_count) by exactly the number of rows it adds, which is at most one |
| AttemptLimits.RowsBounded | internal/repository/anti_ban.go:384-478 | with max the configured number of attempts, or three where that is below one: attempt_count never exceeds max, is below it while waiting for a retry, and N targets yield at most N * max rows, along every run that revives no target whose attempts are used up |
| Faults.RunSoundExactly | internal/repository/postgres.go:292-310 | each of four laws (attempt bound, timed retries, a target settled, completed campaigns replied) holds in every state of a run if and only if no report of the run commits that law's fault |
| Faults.StepSoundExactly | internal/repository/postgres.go:292-310 | a single step keeps such a law if and only if it does not commit its fault, which a caller can read off the stored row and the reported status |
| Redosing.ReleasedIsDosedAgain | internal/repository/anti_ban.go:171-247 | from any state in which a report releases a warm target, a free doser and account give it one more dose at once, the next event in its history, beyond the attempt bound if that was reached |
| Redosing.ReleasedDoseSpacedExactly | internal/repository/anti_ban.go:171-247 | the target's doses are still spaced after that dose if and only if the report did not release it too early |
| Redosing.SelectableIsDosed | internal/worker/campaign_doser.go:69-98 | a selectable warm target is dosed by a run of one free doser as soon as an account and the warm quota allow it |
| Redosing.DuplicateDoseHappens | internal/usecase/campaign.go:56-83 | a concrete run from freshly uploaded campaigns on which a reported retry_pending gives two doses in a row and more attempts than allowed |
| AccountSafety.DailyLimitRespected | internal/repository/anti_ban.go:252-267 | used_count never exceeds daily_limit on any UTC date although the first insert of a day is unguarded |
| AccountSafety.CooldownRespected | internal/repository/anti_ban.go:433-450 | a cooldown applied before a tick listed its accounts ends no later than that tick's clock, for rotation and preferred picks alike |
| AccountSafety.NoDoseDuringCooldown | internal/worker/campaign_doser.go:127-145 | if no cooldown of the account falls between listing and claim, as in an atomic tick, no dose is given to it before the cooldown ends |
| AccountSafety.DisabledIsNeverDosed | internal/repository/anti_ban.go:305-306 | an account disabled at the start stays disabled along every run, and no outbox row of any date is ever its own |
| AccountSafety.DisabledAlong | internal/repository/anti_ban.go:433-450 | from any state on, an account that is disabled and in no doser's hands keeps its use of every date, whatever runs |
| AccountSafety.CooldownsAreLogged | internal/repository/anti_ban.go:433-450 | an account row changes only by a cooldown of one account not disabled, and each such change is logged with the end the row then has, so the cooldown laws speak of the stored cooldowns |
| Lifecycle.NeverGoesBack | internal/repository/postgres.go:503-514 | a campaign that left draft or processing never returns to it, even when started from a stale list |
| Lifecycle.StopIsEffective | internal/repository/postgres.go:493-501 | after a campaign is over, its rows grow by at most the number of dosers that hold one of its targets, hence at most k |
| Lifecycle.StopEndsCampaign | internal/repository/postgres.go:493-501 | a stop sets the campaign to stopped and changes nothing else; along every run after it the campaign is never draft or processing and gets at most one row per doser that held one of its targets |
| Lifecycle.RepliedKeptExactly | internal/repository/postgres.go:292-295 | a step keeps a target replied if and only if it does not report an error status for it |
| Lifecycle.CompletionChecked | internal/repository/postgres.go:601-621 | a campaign turns completed only by RegisterReply and only when all its targets are replied |
| Completion.CompletionMeansReplied | internal/repository/postgres.go:601-621 | along every run that erases no reply of a completed campaign, all targets of a completed campaign are replied in every state |
| Completion.CountStaysTrue | internal/repository/postgres.go:601-621 | what the count found, all targets of the campaign replied, still holds at any later point of a run that reports no error for one of them in between |
| Completion.StepKeepsAllReplied | internal/repository/postgres.go:292-295 | a single step keeps all targets of a campaign replied if and only if it reports no error for one of them |
| CampaignCounters.CountersBoundTargets | internal/repository/postgres.go:326-336 | delivered targets are at most processed_count, and targets in an error status at most error_count plus exhausted retries plus applied delivery-unknown marks |
| CampaignCounters.LossesAreReal | internal/repository/anti_ban.go:452-478 | each loss the bound allows for is one target of the campaign that a step took into failed or delivery_unknown without touching a counter |
| Phases.StepKeepsSane | internal/worker/campaign_doser.go:69-121 | what each doser learnt in its tick stays true of the tables whatever runs between its calls: its clock is not ahead, its accounts and quota row exist, its target belongs to the campaign it read |
| Repository.PostgresRepository.AcceptsAccount | internal/repository/anti_ban.go:306-336 | query filter, status correction and IsAssignable together accept an account if and only if it is of the tenant, not disabled, in no cooldown that lies ahead, and its use of that date is below its limit |
| Repository.PostgresRepository.ListAssignableTenantAccounts | internal/repository/anti_ban.go:296-336 | lists exactly the accounts of the tenant that are not disabled, in no cooldown that lies ahead and below their limit on that date, in creation order |
| Repository.PostgresRepository.GetNextPendingTarget | internal/repository/anti_ban.go:120-203 | returns the first selectable unlocked target with its own columns, the chat id of its mapping and, as preferred account, the account of that mapping whenever there is one |
| Columns.ListedByColumns | internal/repository/anti_ban.go:296-336 | the listing as a function of the tables has exactly those accounts, read off tenant, status, cooldown_until, used_count and daily_limit |
| Columns.ListingKeepsOrder | internal/repository/anti_ban.go:312 | the listing of two stretches of accounts is the listing of the first followed by that of the second |
| Columns.SelectedByColumns | internal/repository/anti_ban.go:128-184 | a target is selectable if and only if it was never tried or waits for a retry that is due, its campaign is the tenant's, processing and not deleted, and its phone is not blocked; as warm if and only if the mapping of tenant, phone and messenger has a chat id, as cold if and only if there is none |
| Repository.NextPendingIsFirst | internal/repository/anti_ban.go:167-184 | a target is selected if and only if a free selectable one exists, and it is the earliest created of them |
| Repository.WarmAndColdSplit | internal/repository/anti_ban.go:129-146 | warm and cold selection are disjoint and together reach every eligible target except exactly those whose mapping has an empty chat id |
| Repository.PostgresRepository.ReserveDailySlot | internal/repository/anti_ban.go:252-267 | the upsert succeeds if and only if the account exists and the day's row is missing or below the limit, and adds exactly one |
| Repository.PostgresRepository.AssignAccountAndEnqueueTarget | internal/repository/anti_ban.go:227-294 | claims exactly the still claimable targets: usage, target and outbox change together or not at all, and an exhausted account is an error |
| Columns.ClaimByColumns | internal/repository/anti_ban.go:236-292 | a claim goes through if and only if the target is due and the account exists with no row for the UTC day of the publish time or one below its limit; then one pending row, one attempt more on that account and one use more, and otherwise no change; which failure it is decides between error and not eligible |
| Repository.PostgresRepository.CreateTenantDailyQuota | internal/repository/anti_ban.go:79-98 | the row is inserted only if missing, with a limit inside the configured range, and is otherwise left alone |
| Repository.ColdLimitsDrawn | internal/repository/anti_ban.go:80-86 | every limit between the configured ones can be drawn |
| ColdPacing.QuotaRowLasts | internal/repository/anti_ban.go:79-110 | once a day's quota row exists every later call loads that row: its limit is never drawn again and its counters never fall, along any run |
| Repository.PostgresRepository.TryReserveColdSlot | internal/repository/anti_ban.go:562-584 | reserves if and only if the limit and the whole-second spacing allow it |
| Repository.PostgresRepository.IncrementWarmUsed | internal/repository/anti_ban.go:586-593 | adds one to the tenant's row of that date if it exists and changes nothing else |
| DoseSpacing.DeferralHoldsBackExactly | internal/repository/anti_ban.go:547-560 | a deferral touches exactly the due retries of the tenant's undeleted processing campaigns and of those only next_attempt_at; they are held back if and only if the new time lies ahead; no other table changes |
| Repository.PostgresRepository.ApplyRetryableFailure | internal/repository/anti_ban.go:383-505 | a target in flight then waits for a retry at the given time, and true is returned, if and only if its attempts are fewer than maxAttempts (three where that is below one), and has failed otherwise; waiting and settled targets are left alone, and an account is cooled down only while its target is in flight |
| Columns.FailureByColumns | internal/repository/anti_ban.go:384-504 | the same of the tables with every column written, for every stored status: nothing changes for the eight decided ones, and the flag is true exactly for targets that then wait |
| Columns.CooldownByColumns | internal/repository/anti_ban.go:433-450 | an account cools down if and only if the code reads SESSION_EXPIRED or BROWSER_ERROR in any case and padding, the target was undecided, and the account is known and not disabled |
| Repository.PostgresRepository.MarkTargetDeliveryUnknown | internal/repository/anti_ban.go:507-545 | marks exactly the targets that are neither successful nor marked, and an unknown target is no error |
| Columns.UnknownByColumns | internal/repository/anti_ban.go:514-524 | each target but one sent, delivered, viewed, replied or already marked becomes delivery_unknown with code and message and no next attempt; nothing else changes |
| Repository.PostgresRepository.UpdateTargetStatus | internal/repository/postgres.go:262-374 | stores the higher-ranked of a stored and a non-error status, always stores an error, counts the reported status, and errs for a missing target or an unknown status text |
| Columns.ReportByColumns | internal/domain/models.go:80-98 | which status gives way to which, pair by pair: only earlier stages of the same sending give way, an error never does; with last_error and sent_at as written, and the exact failing cases |
| Columns.CountersByColumns | internal/repository/postgres.go:323-336 | processed_count grows by one if and only if delivered is reported of a target not stored so, error_count if and only if an error is reported of one not stored in an error |
| Repository.PostgresRepository.RegisterReply | internal/repository/postgres.go:539-624 | marks all targets of the campaign and phone replied, adds one reply row, blocks an unsubscriber, and completes the campaign if and only if all its targets are replied |
| Columns.ReplyByColumns | internal/repository/postgres.go:546-621 | one reply row on the account that is due, the tenant's phone blocked if and only if the reply unsubscribes, the campaign completed if and only if all its other targets had replied; no change where no such target or account is found |
| Columns.RepliedByColumns | internal/repository/postgres.go:550-551 | text, time and status are written to every target of the campaign with that phone and to no other |
| Columns.ReplyAccountByColumns | internal/repository/postgres.go:561-573 | the reply row's account is the target's own, or else the first of the target's tenant in creation order |
| Repository.AllRepliedByCount | internal/repository/postgres.go:601-613 | comparing COUNT with the sum of replied rows decides exactly whether all targets are replied |
| Repository.PostgresRepository.StartCampaign | internal/repository/postgres.go:503-514 | turns a draft into processing and leaves any other campaign alone |
| Repository.PostgresRepository.StopCampaign | internal/repository/postgres.go:493-501 | stops the campaign whatever its status |
| Environments.Environment.Interleave | internal/worker/campaign_doser.go:69-121 | what others do between two calls continues the run, takes no step of the running component and leaves its own memory alone |
| Environments.OthersRun | internal/worker/campaign_doser.go:69-121 | between two calls nothing possible is kept from happening: every enabled step of the others is taken in the order given, but for the running component's own |
| Environments.AnythingMayHappen | internal/worker/campaign_doser.go:69-121 | in every state the clock may advance, a campaign be stopped, mappings be replaced, a recipient be blocked, any status or reply be reported, and a doser list accounts by a stale clock or give up, with exactly that effect |
| Environments.Environment.Record | internal/worker/campaign_doser.go:69-121 | a doser's call enters the trace as one enabled protocol step with exactly its effect on the tables |
| Dosing.CampaignDoser.PickAccount | internal/worker/campaign_doser.go:127-145 | the preferred account if it is listed, leaving the rotation alone; otherwise the account at the tenant's cursor, which moves by one |
| Dosing.PickedInTurn | internal/worker/campaign_doser.go:127-145 | for a selected target that pick is the account of its chat mapping whenever that is offered, the rotation untouched, and otherwise the one at the tenant's cursor |
| Dosing.CampaignDoser.ReserveCold | internal/worker/campaign_doser.go:216-225 | the slot is held exactly when the call succeeded and the slot was free |
| Dosing.CampaignDoser.Assign | internal/worker/campaign_doser.go:176-255 | the claim carries the payload, event and routing identity of the picked account, and its refusal is told from a target found not eligible |
| Dosing.CampaignDoser.AssignWarm | internal/worker/campaign_doser.go:243-255 | whatever else runs, the warm count is tried exactly when the claim returned without an error, also when it dosed nothing, and the trace shows claim, others' steps, count in this order |
| Dosing.CampaignDoser.AssignCold | internal/worker/campaign_doser.go:216-241 | whatever else runs, a claim is tried exactly when the slot was reserved and made exactly when it is then served and not refused, and the trace shows reservation, others' steps, claim in this order |
| Dosing.CampaignDoser.ScheduleTarget | internal/worker/campaign_doser.go:170-261 | whatever else runs, its first step chooses for the target the account its chat mapping names if that is listed, leaving the rotation alone, and otherwise the one at the cursor, which moves by one; an undisturbed call has exactly that effect on tables and rotation |
| Dosing.CampaignDoser.DoseTenant | internal/worker/campaign_doser.go:69-121 | every tick, with any failures and anything running between its calls, continues the protocol run that led to the tables and ends in the tables' own state; an undisturbed tick does exactly what QuietTick says |
| Dosing.CampaignDoser.DoseAllTenants | internal/worker/campaign_doser.go:56-67 | ticks of successive tenants, failed ones included, continue that run |
| Ticks.StopHoldsAcross | internal/repository/postgres.go:493-501 | across any ticks, from the state before the first to the state after the last, a campaign that is over stays over and gains at most the rows of the dosers that held one of its targets |
| Ticks.TablesAfterStop | internal/repository/postgres.go:493-501 | the same of the mutable tables, with at most one further row per doser |
| Ticks.UndisturbedTickDosesExactly | internal/worker/campaign_doser.go:69-121 | an undisturbed tick, in every state: one warm row if a warm target is due, else one cold row if a cold one is due by window, limit and spacing, provided the account it picks has a slot on the UTC date; a refused warm claim changes nothing, a refused cold one costs its slot; else nothing |
| Ticks.KnownChatKeepsItsAccount | internal/worker/campaign_doser.go:127-255 | the row of an undisturbed tick, warm or cold, column by column: on the account of the target's chat mapping if that is listed, without moving the rotation, else on the next in turn; addressed by the target's own columns, with event, contact type and chat by whether the mapping exists |
| Ticks.IdleTickPostpones | internal/worker/campaign_doser.go:77-83 | without accounts exactly the due retries of the tenant's live processing campaigns move, all to the next opening time of the local clock, within a day; nothing else changes |
| Ticks.ListedAccountsHaveSlots | internal/worker/campaign_doser.go:71-73 | while the UTC date is the local date, every listed account has a daily slot left |
| Ticks.ListedAccountsMayLackSlots | internal/repository/anti_ban.go:252-267 | when the dates differ, an account can be listed although its UTC-date usage is at the limit |
| Ticks.TablesKeepTheBooks | internal/repository/anti_ban.go:227-294 | after any disturbed ticks the mutable tables satisfy the conservation laws and the cold-row bound |
| RoundRobin.RotationIsFair | internal/worker/campaign_doser.go:127-145 | k rotating picks of one tenant from a fixed list of n accounts choose each account floor(k/n) or ceil(k/n) times, from any cursor and whatever preferred hits and other tenants' picks come between |
| Dosing.ColdIntervalInRange | internal/config/config.go:78-89 | the cold interval is a whole number of minutes between the configured ones, or the first where the second is less |
| Dosing.ColdIntervalsDrawn | internal/config/config.go:78-89 | every such number of minutes can be drawn |
| Scheduling.SchedulerWorker.CheckAndStartCampaigns | internal/worker/scheduler.go:45-105 | does nothing while a check is under way, otherwise continues the protocol run whatever else runs, and undisturbed starts exactly the due drafts |
| Scheduling.SchedulerWorker.StartAll | internal/worker/scheduler.go:74-105 | starts listed drafts one by one in any order; undisturbed, exactly they change |
| Columns.StartedByColumns | internal/repository/postgres.go:468-514 | an undisturbed check turns into processing exactly the drafts that are not deleted and start at once or whose start time has come |
| Results.HandlingIsProtocolRun | internal/worker/result_consumer.go:479-569 | handling any result of a resolved target is a legal stretch of the protocol with the same effect on the tables |
| Results.InFlightVerdict | internal/worker/result_consumer.go:539-570 | a target in flight ends, by reported status and the text of the code alone, at the status reported, or for a failure at retry_pending for the four transient codes while attempts are fewer than configured, at delivery_unknown for that code, at failed for every other text |
| Verdicts.TransientFailureVerdict | internal/worker/result_consumer.go:804-852 | for the four transient codes in any form: every column written, with the next attempt the configured minutes (15 where below one) after the consumer's clock while attempts are fewer than configured, and failed otherwise; no other row changes but for the cooldown |
| Verdicts.SessionCodesCoolDown | internal/worker/result_consumer.go:832-838 | over all results an account cools down, for the configured minutes (60 where below one), if and only if SESSION_EXPIRED or BROWSER_ERROR in any form is reported of an undecided target and the account it is booked on is known and not disabled |
| Verdicts.TakenAsReported | internal/worker/result_consumer.go:539-569 | a message reported as sent, delivered or viewed, or its addressee as missing, is taken so over every stored status unless it gives way, whatever its code, with last_error (or the default for a missing addressee) and sent_at as written |
| Domain.DispositionByText | internal/domain/errors.go:35-50 | a code is retryable for exactly four texts, unknown for one and final for all others, known or not |
| Domain.CodeInAnyForm | internal/domain/errors.go:36 | a code in any case and with any padding is compared as that code |
| Results.FailureCallMatchesProtocol | internal/worker/result_consumer.go:832-848 | a retryable failure is applied with exactly the retry and cooldown times of the protocol's failure step |
| Results.FinalFailureIsReported | internal/worker/result_consumer.go:849-852 | a reported failure whose code is none of the five unsettled ones, or missing, is written as failed with its message and never retried |
| Results.ConsumerReopensExactly | internal/worker/result_consumer.go:539-570 | the consumer writes an orchestrator-owned status if and only if the result says pending with none of the five unsettled codes, and never writes retry_pending |
| Results.CallbackByText | internal/usecase/campaign.go:56-83 | a callback is left to the consumer if and only if it reports a failure with one of the five unsettled codes in any form, or delivery_unknown without a code; any other is written exactly as it says |
| Results.CallbackReopensExactly | internal/usecase/campaign.go:56-83 | so a callback writes an orchestrator-owned status if and only if it says pending, or retry_pending with a final or missing code |
| Results.CallbackDefersToConsumer | internal/usecase/campaign.go:59-72 | for a failure status the callback stands back if and only if the consumer would retry it or mark it delivery-unknown |
| Results.ReportReopensExactly | internal/repository/postgres.go:292-310 | a reported status takes a settled target out of the settled set if and only if it is orchestrator-owned and the target is in an error status |
| Results.ReportReleasesExactly | internal/repository/anti_ban.go:236-247 | a report makes a target claimable at once if and only if it says retry_pending of one pending or in error that no next attempt time holds back, or pending of one never dosed; any account with a slot can then dose it |
| Results.RedeliveryIdempotent | internal/worker/result_consumer.go:804-852 | handling the same failure, viewed or user-not-found result again, later, leaves every table as after once, for every disposition, and a retried failure returns the same flag |
| Results.DeliveredCountedTwiceExactly | internal/repository/postgres.go:326-336 | delivered reported twice is counted twice if and only if the target was viewed or replied |
| StatusOrder.StoredAfterIsUpdate | internal/repository/postgres.go:292-310 | the status column after a report is the stored or the reported status by rank, and unchanged when the update fails |
| StatusOrder.FoldReachesTopRank | internal/domain/models.go:84-98 | any sequence of non-error reports ends at the greatest rank of the stored status and the reports |
| StatusOrder.FoldIsLastOfTopRank | internal/repository/postgres.go:292-295 | the final status is the last report of the greatest rank, or the stored one if every report ranks lower |
| StatusOrder.OrderDoesNotMatter | internal/domain/models.go:84-98 | all permutations end at the same rank, and at the same status when that is viewed or replied |
| StatusOrder.OrderOfSentAndDelivered | internal/domain/models.go:91-92 | sent and delivered share a rank, so there the order does show |
| Flushing.ResultConsumer.HandleResult | internal/worker/result_consumer.go:361-582 | one delivery handled on the mutable repository with anything running between its calls: it is settled as Handle says on what the repository answered, where it is acknowledged its call was made, succeeded and is a step of the run, a reply acknowledged without a call is one its target's row carried, with the same trimmed text and at most two minutes apart, and a pair to be cached as blocked is persisted if the reply came from the target's own phone; undisturbed, answers and effect are those of the tables |
| Flushing.ResultConsumer.SettleBatch | internal/worker/result_consumer.go:361-582 | the loop settles every delivery exactly once, in arrival order, and continues the protocol run |
| Flushing.UndisturbedNackExactly | internal/worker/result_consumer.go:479-582 | an undisturbed delivery goes back to the queue if and only if its known target's call fails on the tables: a reply its target's row does not carry, without a matching target or whose own target is gone, or a status call that errs |
| Replies.AcknowledgedReplyIsStored | internal/worker/result_consumer.go:479-538 | an acknowledged reply from its target's own phone and campaign is on its target's row afterwards, replied, with the same trimmed text and at most two minutes apart; if it unsubscribes and its text is not the one stored before, the phone is blocked for the campaign's tenant |
| Replies.OtherReplyIsRegistered | internal/worker/result_consumer.go:501-507 | a reply of another text, or more than two minutes apart, or over another status, adds one reply row where a target is found, reaches every target of the campaign with that phone, and blocks the phone if it unsubscribes |
| Replies.OtherReplyIsObserved | internal/worker/result_consumer.go:501-538 | it is acknowledged if and only if a target is found and its own target exists; it is then observed under the campaign's tenant, the account reported or else that dosed the target, and the target's phone, which is cached as blocked if and only if it unsubscribes |
| Replies.KnownReplyLeavesNoTrace | internal/worker/result_consumer.go:479-499 | a reply its target's row carries already is acknowledged without a call and changes no table |
| Flushing.ResultConsumer.Flush | internal/worker/result_consumer.go:343-770 | a flush empties the queue, settles it as a stretch of the protocol run, saves the admin chats its results report, has every pair it caches for a reply from the target's own phone in the blocked table, groups the replies observed in the batch, and publishes of what the groups are due all but the tasks whose queue cannot be had and everything from a cancellation on |
| Runs.BlockedSince | internal/repository/postgres.go:588-599 | what is blocked at some point of a trace is blocked at every later one, so a cached block stays persisted |
| Consumer.AdminMappingExactly | internal/worker/result_consumer.go:71-99 | an admin chat is saved if and only if the result is a sent, unaddressed notification with a chat, a phone and a reported sender account, current field before legacy one; the account is never guessed and such a result reaches no target |
| Consumer.ResolvedExactly | internal/worker/result_consumer.go:375-477 | which target a result reaches: the one it names, if with a phone or without a chat; else the one its chat is known for, unless it is an admin notification with a phone; with phone and account as the code fills them in; and else none |
| Consumer.NackedExactly | internal/worker/result_consumer.go:479-582 | a delivery is returned to the queue if and only if a repository call for its resolved target failed, where a reply already stored with the same trimmed text at most two minutes apart needs none |
| Consumer.ObservedExactly | internal/worker/result_consumer.go:479-538 | a reply is observed if and only if the columns read back do not already show it (status, trimmed text, two minutes) and both its registration and the target lookup succeeded, and then it is acknowledged |
| Consumer.CallsAreAddressed | internal/worker/result_consumer.go:375-477 | results that resolve to no target or campaign never reach a status call |
| Consumer.ReplyRedeliveryRecognised | internal/worker/result_consumer.go:479-499 | a registered reply delivered again is recognised if and only if its target's row then carries it, that is, if the target has the reply's campaign and phone or carried it before |
| Consumer.CachedBlockIsPersistedExactly | internal/worker/result_consumer.go:501-518 | the pair put into the cache is in the table if and only if the reply came from the target's phone or the pair was blocked before |
| Consumer.GroupReplies | internal/worker/result_consumer.go:45-52 | each group is exactly the arrival-order subsequence of its tenant and account, and no group is empty |
| Consumer.OnlyKeepsOrder | internal/worker/result_consumer.go:45-52 | later arrivals only extend a group at its end |
| Consumer.OnlyCounts | internal/worker/result_consumer.go:45-52 | a reply is in its own group exactly as often as it was observed |
| Consumer.GroupsPartition | internal/worker/result_consumer.go:45-52 | the sizes of the groups add up to the batch |
| Consumer.NotifyGroup | internal/worker/result_consumer.go:588-769 | one task per admin phone, skipping those whose channel or queue cannot be had, until the context is cancelled, and none for an unknown account or tenant |
| Consumer.OneTaskPerPhone | internal/worker/result_consumer.go:624-694 | a group is due one task for each admin phone of its tenant, in order, with all its replies, on the queue named after its account |
| Consumer.NotifyAdmins | internal/worker/result_consumer.go:588-769 | goes through the groups once each in any order and publishes exactly what is neither skipped nor cut off: a subsequence of what each group is due, nothing for anybody else, and nothing at all when cancelled on entry |
| Consumer.GroupsNotifiedInPart | internal/worker/result_consumer.go:588-769 | each group is sent a subsequence of the tasks it is due, in order and on its own queue, and nobody else anything |
| Publishing.PublishedExactly | internal/worker/result_consumer.go:671-698 | of the tasks due exactly those are published whose delay the context outlives and whose queue can be had, in order |
| Consumer.GroupsNotifiedExactly | internal/worker/result_consumer.go:671-698 | every group gets all it is due if and only if the context stays live through every delay and every queue can be had; cancelled on entry, nothing is sent |
| Consumer.ShutdownLosesNotifications | internal/worker/result_consumer.go:335-338 | with the context cancelled on entry an observed reply is acknowledged and its notification, though due, never sent |
| Consumer.NotifyQueueIsOwn | internal/worker/outbox.go:61-63 | a notification queue belongs to exactly one account |
| Outbox.RoutingKeyIsOwn | internal/worker/outbox.go:43-50 | routing keys and queues of two accounts are equal if and only if the accounts are |
| Outbox.DosedRowsRoute | internal/worker/campaign_doser.go:197-212 | the row of a claim carries the selected target's phone and campaign, names the claimed account in column and payload, resolves to it, and uses the known chat if and only if it is warm |
| Outbox.FiltersHold | internal/worker/outbox.go:287-345 | what becomes of a message, exactly: a cold one waits while the window is closed; any other is answered as blocked if and only if its tenant and phone are among the pairs the cache stood for when looked up; what is left is published, if its queue can be had, on key and queue of the account on the row and in the payload |
| Outbox.BlockedResultSettles | internal/worker/outbox.go:294-331 | the result published instead of a blocked message settles its target as failed with its message once consumed, without retry or cooldown |
| Outbox.ProcessBatch | internal/worker/outbox.go:280-401 | while the blocklist's writers act between its messages, the loop makes its deliveries in order and collects exactly the successful ones |
| Outbox.OutboxWorker.ProcessMessages | internal/worker/outbox.go:274-422 | a pass attempts each message of the batch once and marks exactly the rows with a successful delivery, or none when marking fails |
| Outbox.PassMarksExactly | internal/worker/outbox.go:350-422 | a pass leaves a row processed if and only if it was, or marking works and a delivery of it was acknowledged, sent where no confirmation exists, or answered as blocked |
| Outbox.DeliveredWhenDue | internal/repository/postgres.go:214-225 | a pass delivers only rows that were pending and due when its batch was read |
| Outbox.AtLeastOnce | internal/worker/outbox.go:274-422 | over any run with errors, nacks, failed markings and blocklist writers every row is still pending or had a successful delivery; whatever reached an account queue was its own account's, not in the cache when looked up, and inside the window when cold; whatever was answered as blocked is persisted as blocked |
| Outbox.RowsNeverLost | internal/repository/postgres.go:214-260 | rows keep their place and content, and marks are never taken back |
| Pipeline.AttemptsAreDelivered | internal/worker/outbox.go:274-422 | with dosing, results, publication message by message, markings, crashes and blocklist writers on the same tables, each attempt of a target is a row of its own that is still pending or was successfully delivered, and what was answered as blocked is in the blocked table |
| Pipeline.PipelineIsRun | internal/repository/postgres.go:243-260 | every such run, markings included, is a run of the dosing protocol |
| Blocklist.KeyInjective | internal/blocklist/cache.go:82-84 | two string keys are equal if and only if tenant and phone are |
| Blocklist.Cache.IsBlocked | internal/blocklist/cache.go:28-32 | answers membership of the pair |
| Blocklist.Cache.Add | internal/blocklist/cache.go:34-43 | the copied set gains exactly the pair |
| Blocklist.Cache.Refresh | internal/blocklist/cache.go:45-57 | the set becomes exactly the listed pairs, and stays as it was when listing fails |
| Blocklist.CacheNeverInvents | internal/blocklist/cache.go:34-57 | under any interleaving of adders and refreshers split into load and store, every cached pair is persisted |
| Blocklist.RefreshStoresWhatItLoaded | internal/blocklist/cache.go:45-57 | at its store a refresh makes the cache exactly the table it loaded, whatever happened in between |
| Settings.NextDayWorkStartIsEarliest | internal/config/config.go:121-128 | NextDayWorkStart is the earliest window opening strictly after now |
| Settings.WorkWindowByClock | internal/config/config.go:71-76 | the window is open if and only if the local clock stands between the configured hours and minutes, the closing time excluded |
| Unsubscribe.NormalizeAgreesExactly | internal/config/config.go:172-174 | two texts normalise alike if and only if they have the same lower-case words in the same order |
| Unsubscribe.MatchesExactly | internal/config/config.go:133-139 | a reply matches if and only if its words are those of a configured phrase, or of "@" when no phrase has words |
| Unsubscribe.DefaultMatchesExactly | internal/config/config.go:133-136 | where the configured set is empty a reply matches if and only if its only word is "@" |
| Unsubscribe.FormDoesNotMatter | internal/config/config.go:172-174 | neither the case of Latin and Cyrillic letters nor padding changes whether a reply matches, whatever is configured |
| Unsubscribe.ParseUnsubscribeVariants | internal/config/config.go:144-155 | the trimmed non-blank parts in order, or "@" when there is none |
| Unsubscribe.SplitAtSemicolons | internal/config/config.go:144-150 | the parts put together again with semicolons are the configured text, and none holds a semicolon |
| Unsubscribe.BuildUnsubscribeSet | internal/config/config.go:157-168 | the set holds exactly the non-empty normal forms, or that of "@" when there is none |
| Domain.UuidTextInjective | internal/worker/outbox.go:43-50 | distinct identifiers never share a text, on which keys and queue names rest |
| Domain.SessionHealthIsRetryable | internal/domain/errors.go:35-60 | every code that cools an account down is one that is retried |

## Left out

- Broker, database and storage plumbing: a publish is an error, unconfirmed, nacked or acked, and a repository call is served or fails as a whole; a commit whose outcome stays unknown is not modelled.
- The reconnect inside a flush, which locks the same mutex again; a notification that is published is an attempt, not a receipt, and which channel and queue can be had is a parameter.
- GenerateExcel and UpdateCampaign, which write back a whole, possibly stale, campaign row: lifecycle and counter laws are stated for runs without them. CreateDosedOutboxMessage, which the doser does not use.
- HTTP handlers, websocket hub, reply poller and logging.
- UploadCampaign: a run starts from campaigns and targets as it creates them; ones uploaded later are present from the start as untouched drafts. Completion estimates are not modelled.
- Message text, spintax and attachments; the payload is a record of the routing and contact fields.
- Chat and admin mappings change arbitrarily (a protocol step replaces them), so UpsertChatPhoneMapping and the storage behind UpsertAdminChatMapping are not modelled themselves.
- Daylight-saving changes: the time zone is a fixed UTC offset. Configuration, daily limits and account tenancy do not change during a run.
- Columns updated_at and created_at, apart from the order they give; identifiers come from outside, and the UUID parser is a parameter.
- Upper and lower case are exact for ASCII and Cyrillic letters only.
- The failure handler's two clock readings, for retry and for cooldown, are taken as one.
- The doser's cursor is unbounded; the code's wraps after 2^63 picks.
- Outbox payloads that are not valid JSON or carry non-UUID identifiers; all rows here are written by the doser or carry typed payloads.
- AttemptLimits.SettledForever: stated for runs without the fault Reopen of that target, because the code writes such a report; Faults.RunSoundExactly shows that nothing else breaks it.
- DoseSpacing.NoDuplicateDosing: stated for runs that release the target never too early, because a released target can be dosed at once; exactly then the spacing is broken (Redosing.ReleasedDoseSpacedExactly).
- AttemptLimits.RowsBounded: stated for runs without the fault Overrun, for the same reason.
- Completion.CompletionMeansReplied: stated for runs without the fault Erase, because the code writes an error over replied.
- Lifecycle.CompletionChecked: takes RegisterReply as one atomic step, while its count and its completing update are two statements; an error status committed between them is not modelled there, and Completion.CountStaysTrue says what keeps the count true.
- Repository.PostgresRepository.RegisterReply: calls are taken as serialisable; of the calls modelled this one is not.
- WarmQuota.WarmQuotaBound: the row bound counts increments that failed, because the row stays when they do.
- Dosing.CampaignDoser.DoseAllTenants: takes the tenants as given; GetTenantsWithProcessingCampaigns is a read.
