/**
 The database tables as values, and each repository call as one atomic transition on them.
 A call that fails leaves the tables as they were, as its rolled-back transaction does.
 */
module Tables {
  import opened Domain
  import opened Settings

  datatype Target = Target(
    campaign: Uuid,
    tenant: Uuid,
    account: Option<Uuid>,
    phone: Phone,
    messengerType: string,
    status: TaskStatus,
    attempts: nat,
    nextAttemptAt: Option<Time>,
    lastError: Option<string>,
    lastErrorCode: Option<string>,
    lastErrorMessage: Option<string>,
    sentAt: Option<Time>,
    repliedAt: Option<Time>,
    lastReplyText: Option<string>)

  datatype Campaign = Campaign(
    tenant: Uuid,
    status: CampaignStatus,
    deleted: bool,
    processedCount: int,
    errorCount: int,
    startImmediately: bool,
    timeToStart: Option<Time>)

  datatype Account = Account(
    tenant: Uuid,
    status: AccountStatus,
    dailyLimit: int,
    cooldownUntil: Option<Time>)

  datatype Quota = Quota(
    coldLimit: int,
    coldUsed: nat,
    warmUsed: nat,
    lastColdPublishAt: Option<Time>)

  datatype ChatKey = ChatKey(tenant: Uuid, phone: Phone, messengerType: string)

  datatype ChatMapping = ChatMapping(chatId: string, account: Uuid)

  /** The send-task payload; message text and attachment are not modelled. */
  datatype SendTask = SendTask(
    taskId: Uuid,
    campaignId: Uuid,
    tenantId: Uuid,
    tenantAccountId: Uuid,
    accountId: Uuid,
    phone: Phone,
    messengerType: string,
    useChatId: bool,
    chatId: string,
    contactType: string)

  datatype OutboxRow = OutboxRow(
    eventType: string,
    task: SendTask,
    tenant: Uuid,
    account: Uuid,
    publishAt: Time,
    processed: bool)

  datatype ReplyRow = ReplyRow(target: Uuid, account: Uuid, text: string, receivedAt: Time)

  /** accountOrder and targetOrder list the keys in the order of the queries' ORDER BY. */
  datatype Db = Db(
    targets: map<Uuid, Target>,
    targetOrder: seq<Uuid>,
    campaigns: map<Uuid, Campaign>,
    accounts: map<Uuid, Account>,
    accountOrder: seq<Uuid>,
    usage: map<(Uuid, int), nat>,
    quotas: map<(Uuid, int), Quota>,
    outbox: seq<OutboxRow>,
    blocked: set<(Uuid, Phone)>,
    mappings: map<ChatKey, ChatMapping>,
    replies: seq<ReplyRow>)

  // ---------------------------------------------------------------- account listing

  function Used(db: Db, account: Uuid, date: int): nat {
    if (account, date) in db.usage then db.usage[(account, date)] else 0
  }

  function RemainingToday(a: Account, used: nat): nat {
    if a.dailyLimit - used < 0 then 0 else a.dailyLimit - used
  }

  predicate IsAssignable(a: Account, used: nat, now: Time) {
    if a.status.Disabled? then false
    else if a.status.Cooldown? && a.cooldownUntil.Some? && now < a.cooldownUntil.value then false
    else RemainingToday(a, used) > 0
  }

  predicate Listable(db: Db, tenant: Uuid, date: int, now: Time, id: Uuid) {
    id in db.accounts && db.accounts[id].tenant == tenant && IsAssignable(db.accounts[id], Used(db, id, date), now)
  }

  function Listing(db: Db, order: seq<Uuid>, tenant: Uuid, date: int, now: Time): (ids: seq<Uuid>)
    ensures forall id :: id in ids <==> id in order && Listable(db, tenant, date, now, id)
  {
    if order == [] then []
    else
      var rest := Listing(db, order[1..], tenant, date, now);
      if Listable(db, tenant, date, now, order[0]) then [order[0]] + rest else rest
  }

  // ---------------------------------------------------------------- target selection

  datatype PendingTarget = PendingTarget(
    targetId: Uuid,
    campaignId: Uuid,
    tenantId: Uuid,
    phone: Phone,
    chatId: string,
    messengerType: string,
    isWarm: bool,
    preferred: Option<Uuid>)

  predicate Claimable(t: Target, now: Time) {
    (t.status == Pending && t.attempts == 0) ||
    (t.status == RetryPending && (t.nextAttemptAt.None? || t.nextAttemptAt.value <= now))
  }

  function KeyOf(db: Db, t: Target): ChatKey
    requires t.campaign in db.campaigns
  {
    ChatKey(db.campaigns[t.campaign].tenant, t.phone, t.messengerType)
  }

  predicate Selectable(db: Db, now: Time, tenant: Uuid, warm: bool, id: Uuid) {
    id in db.targets &&
    var t := db.targets[id];
    t.campaign in db.campaigns &&
    var c := db.campaigns[t.campaign];
    c.tenant == tenant && c.status == Processing && !c.deleted &&
    Claimable(t, now) && (tenant, t.phone) !in db.blocked &&
    if warm then KeyOf(db, t) in db.mappings && db.mappings[KeyOf(db, t)].chatId != ""
    else KeyOf(db, t) !in db.mappings
  }

  function PendingView(db: Db, warm: bool, id: Uuid): PendingTarget
    requires id in db.targets && db.targets[id].campaign in db.campaigns
  {
    var t := db.targets[id];
    var key := KeyOf(db, t);
    PendingTarget(id, t.campaign, db.campaigns[t.campaign].tenant, t.phone,
                  if key in db.mappings then db.mappings[key].chatId else "",
                  t.messengerType, warm,
                  if key in db.mappings then Some(db.mappings[key].account) else None)
  }

  const EVENT_SEND := "message.send"
  const EVENT_SEND_EXISTING_CHAT := "message.send_existing_chat"

  function UsesChatId(v: PendingTarget, cold: bool): bool {
    !cold && v.isWarm && v.chatId != ""
  }

  function BuildTask(v: PendingTarget, account: Uuid, cold: bool): SendTask {
    SendTask(v.targetId, v.campaignId, v.tenantId, account, account, v.phone,
             if v.messengerType == "" then "MAX" else v.messengerType,
             UsesChatId(v, cold), v.chatId, if cold then "cold" else "warm")
  }

  function EventFor(v: PendingTarget, cold: bool): string {
    if UsesChatId(v, cold) then EVENT_SEND_EXISTING_CHAT else EVENT_SEND
  }

  // ---------------------------------------------------------------- claim

  /** (true, nil), (false, nil) and the error return. */
  datatype ClaimOutcome = Dosed | NotEligible | Refused

  predicate HasDailySlot(db: Db, account: Uuid, date: int) {
    account in db.accounts &&
    ((account, date) in db.usage ==> db.usage[(account, date)] < db.accounts[account].dailyLimit)
  }

  function ClaimOutcomeOf(db: Db, now: Time, target: Uuid, account: Uuid, publishAt: Time): ClaimOutcome {
    if target !in db.targets || !Claimable(db.targets[target], now) then NotEligible
    else if !HasDailySlot(db, account, UtcDate(publishAt)) then Refused
    else Dosed
  }

  function Claim(db: Db, now: Time, target: Uuid, tenant: Uuid, account: Uuid,
                 eventType: string, task: SendTask, publishAt: Time): Db
  {
    if ClaimOutcomeOf(db, now, target, account, publishAt) != Dosed then db
    else
      var t := db.targets[target];
      var date := UtcDate(publishAt);
      db.(usage := db.usage[(account, date) := Used(db, account, date) + 1],
          targets := db.targets[target := t.(account := Some(account), tenant := tenant, status := Pending,
                                             attempts := t.attempts + 1, nextAttemptAt := None)],
          outbox := db.outbox + [OutboxRow(eventType, task, tenant, account, publishAt, false)])
  }

  // ---------------------------------------------------------------- failures

  /** Missing is the error return; AlreadyWaiting and Rescheduled return true, the others false. */
  datatype FailureOutcome = Missing | AlreadyWaiting | AlreadySettled | Exhausted | Rescheduled

  function FailureOutcomeOf(db: Db, target: Uuid, maxAttempts: int): FailureOutcome {
    if target !in db.targets then Missing
    else if db.targets[target].status == RetryPending then AlreadyWaiting
    else if db.targets[target].status.IsSettled() then AlreadySettled
    else if db.targets[target].attempts >= EffectiveMaxAttempts(maxAttempts) then Exhausted
    else Rescheduled
  }

  predicate IsRetried(o: FailureOutcome) {
    o == AlreadyWaiting || o == Rescheduled
  }

  function WithError(t: Target, code: string, message: string): Target {
    t.(lastError := Some(message), lastErrorCode := Some(code), lastErrorMessage := Some(message))
  }

  function FailTargets(db: Db, target: Uuid, code: string, message: string, next: Time,
                       maxAttempts: int): map<Uuid, Target> {
    match FailureOutcomeOf(db, target, maxAttempts)
    case Exhausted =>
      db.targets[target := WithError(db.targets[target], code, message).(status := Failed, nextAttemptAt := None)]
    case Rescheduled =>
      db.targets[target := WithError(db.targets[target], code, message).(status := RetryPending,
                                                                         nextAttemptAt := Some(next))]
    case _ => db.targets
  }

  /** Whether the failure puts the account into cooldown: only while the target is in flight. */
  predicate CoolsDown(db: Db, target: Uuid, account: Uuid, code: string, until: Option<Time>, maxAttempts: int) {
    FailureOutcomeOf(db, target, maxAttempts) in {Exhausted, Rescheduled} &&
    account != NIL && IsSessionHealthError(code) && until.Some? &&
    account in db.accounts && !db.accounts[account].status.Disabled?
  }

  function FailAccounts(db: Db, target: Uuid, account: Uuid, code: string, until: Option<Time>,
                        maxAttempts: int): map<Uuid, Account> {
    if CoolsDown(db, target, account, code, until, maxAttempts)
    then db.accounts[account := db.accounts[account].(status := Cooldown, cooldownUntil := until)]
    else db.accounts
  }

  function ApplyRetryableFailure(db: Db, target: Uuid, account: Uuid, code: string, message: string,
                                 next: Time, cooldownUntil: Option<Time>, maxAttempts: int): Db
  {
    db.(targets := FailTargets(db, target, code, message, next, maxAttempts),
        accounts := FailAccounts(db, target, account, code, cooldownUntil, maxAttempts))
  }

  predicate Unknowable(db: Db, target: Uuid) {
    target in db.targets && db.targets[target].status !in {Sent, Delivered, Viewed, Replied, DeliveryUnknown}
  }

  /** The statement matches no row for an unknown target, which is not an error. */
  function MarkDeliveryUnknown(db: Db, target: Uuid, code: string, message: string): Db {
    db.(targets := if Unknowable(db, target)
                   then db.targets[target := WithError(db.targets[target], code, message).(status := DeliveryUnknown,
                                                                                          nextAttemptAt := None)]
                   else db.targets)
  }

  predicate IsDeferrable(db: Db, tenant: Uuid, now: Time, id: Uuid) {
    id in db.targets &&
    var t := db.targets[id];
    t.campaign in db.campaigns && db.campaigns[t.campaign].tenant == tenant &&
    db.campaigns[t.campaign].status == Processing && !db.campaigns[t.campaign].deleted &&
    t.status == RetryPending && (t.nextAttemptAt.None? || t.nextAttemptAt.value <= now)
  }

  function DeferRetries(db: Db, tenant: Uuid, next: Time, now: Time): Db {
    db.(targets := map id | id in db.targets ::
          if IsDeferrable(db, tenant, now, id) then db.targets[id].(nextAttemptAt := Some(next)) else db.targets[id])
  }

  // ---------------------------------------------------------------- reported statuses

  /** The status UpdateTargetStatus stores when `status` is reported over `stored`. */
  function StatusToWrite(stored: TaskStatus, status: TaskStatus): TaskStatus {
    if !status.IsErrorStatus() && stored.Rank() > status.Rank() then stored else status
  }

  function CountReport(c: Campaign, stored: TaskStatus, status: TaskStatus): Campaign {
    if status == Delivered && stored != Delivered then c.(processedCount := c.processedCount + 1)
    else if status.IsErrorStatus() && !stored.IsErrorStatus() then c.(errorCount := c.errorCount + 1)
    else c
  }

  predicate Reportable(db: Db, target: Uuid, status: TaskStatus) {
    target in db.targets && db.targets[target].campaign in db.campaigns &&
    !StatusToWrite(db.targets[target].status, status).Other?
  }

  function SentTime(status: TaskStatus, sentAt: Option<Time>, now: Time): Option<Time> {
    if sentAt.Some? then sentAt
    else if status == Delivered || status == Sent then Some(now)
    else None
  }

  function ReportTargets(db: Db, target: Uuid, status: TaskStatus, lastError: Option<string>,
                         sentAt: Option<Time>, now: Time): map<Uuid, Target>
  {
    if !Reportable(db, target, status) then db.targets
    else
      var t := db.targets[target];
      var sent := SentTime(status, sentAt, now);
      db.targets[target := t.(status := StatusToWrite(t.status, status), lastError := lastError,
                              sentAt := if sent.Some? then sent else t.sentAt)]
  }

  function ReportCampaigns(db: Db, target: Uuid, status: TaskStatus): map<Uuid, Campaign> {
    if !Reportable(db, target, status) then db.campaigns
    else
      var t := db.targets[target];
      db.campaigns[t.campaign := CountReport(db.campaigns[t.campaign], t.status, status)]
  }

  /** Fails, leaving the tables alone, when the target is not Reportable with that status. */
  function UpdateTargetStatus(db: Db, target: Uuid, status: TaskStatus, lastError: Option<string>,
                              sentAt: Option<Time>, now: Time): Db
  {
    db.(targets := ReportTargets(db, target, status, lastError, sentAt, now),
        campaigns := ReportCampaigns(db, target, status))
  }

  // ---------------------------------------------------------------- replies

  predicate IsReplyMatch(db: Db, campaign: Uuid, phone: Phone, id: Uuid) {
    id in db.targets && db.targets[id].campaign == campaign && db.targets[id].phone == phone
  }

  function MarkReplied(targets: map<Uuid, Target>, campaign: Uuid, phone: Phone, text: string,
                       at: Time): map<Uuid, Target> {
    map id | id in targets ::
      if targets[id].campaign == campaign && targets[id].phone == phone
      then targets[id].(status := Replied, lastReplyText := Some(text), repliedAt := Some(at))
      else targets[id]
  }

  function FirstAccountOf(db: Db, order: seq<Uuid>, tenant: Uuid): Option<Uuid> {
    if order == [] then None
    else if order[0] in db.accounts && db.accounts[order[0]].tenant == tenant then Some(order[0])
    else FirstAccountOf(db, order[1..], tenant)
  }

  /** The account a reply row is attributed to; none violates the column's NOT NULL. */
  function ReplyRowAccount(db: Db, id: Uuid): Option<Uuid>
    requires id in db.targets
  {
    if db.targets[id].account.Some? then db.targets[id].account
    else FirstAccountOf(db, db.accountOrder, db.targets[id].tenant)
  }

  predicate Registrable(db: Db, campaign: Uuid, phone: Phone, chosen: Uuid) {
    IsReplyMatch(db, campaign, phone, chosen) && campaign in db.campaigns && ReplyRowAccount(db, chosen).Some?
  }

  predicate AllReplied(targets: map<Uuid, Target>, campaign: Uuid) {
    forall id :: id in targets && targets[id].campaign == campaign ==> targets[id].status == Replied
  }

  function ReplyTargets(db: Db, campaign: Uuid, phone: Phone, text: string, at: Time, chosen: Uuid): map<Uuid, Target> {
    if Registrable(db, campaign, phone, chosen) then MarkReplied(db.targets, campaign, phone, text, at) else db.targets
  }

  /** Whether the COUNT/SUM test of RegisterReply completes the campaign. */
  predicate Completes(db: Db, campaign: Uuid, phone: Phone, text: string, at: Time, chosen: Uuid) {
    Registrable(db, campaign, phone, chosen) && AllReplied(MarkReplied(db.targets, campaign, phone, text, at), campaign)
  }

  function ReplyCampaigns(db: Db, campaign: Uuid, phone: Phone, text: string, at: Time,
                          chosen: Uuid): map<Uuid, Campaign> {
    if Completes(db, campaign, phone, text, at, chosen)
    then db.campaigns[campaign := db.campaigns[campaign].(status := Completed)]
    else db.campaigns
  }

  /**
   Every target of the campaign with that phone becomes replied; `chosen` is the one whose
   id the statement happens to return first. Fails when the call is not Registrable.
   */
  function RegisterReply(db: Db, campaign: Uuid, phone: Phone, text: string, at: Time,
                         unsubscribes: bool, chosen: Uuid): Db
  {
    var ok := Registrable(db, campaign, phone, chosen);
    db.(targets := ReplyTargets(db, campaign, phone, text, at, chosen),
        campaigns := ReplyCampaigns(db, campaign, phone, text, at, chosen),
        replies := if ok then db.replies + [ReplyRow(chosen, ReplyRowAccount(db, chosen).value, text, at)]
        else db.replies,
        blocked := if ok && unsubscribes then db.blocked + {(db.campaigns[campaign].tenant, phone)} else db.blocked)
  }

  // ---------------------------------------------------------------- quotas

  function EnsureQuota(db: Db, tenant: Uuid, date: int, coldLimit: int): Db {
    if (tenant, date) in db.quotas then db
    else db.(quotas := db.quotas[(tenant, date) := Quota(coldLimit, 0, 0, None)])
  }

  predicate SlotFree(q: Quota, at: Time, interval: Time) {
    var spacing := if interval / SECOND < 0 then 0 else interval / SECOND * SECOND;
    q.coldUsed < q.coldLimit &&
    (q.lastColdPublishAt.None? || q.lastColdPublishAt.value + spacing <= at)
  }

  predicate SlotAvailable(db: Db, tenant: Uuid, date: int, at: Time, interval: Time) {
    (tenant, date) in db.quotas && SlotFree(db.quotas[(tenant, date)], at, interval)
  }

  /** Reserves exactly when SlotAvailable. */
  function TryReserveColdSlot(db: Db, tenant: Uuid, date: int, at: Time, interval: Time): Db {
    var key := (tenant, date);
    if SlotAvailable(db, tenant, date, at, interval)
    then db.(quotas := db.quotas[key := db.quotas[key].(coldUsed := db.quotas[key].coldUsed + 1,
                                                       lastColdPublishAt := Some(at))])
    else db
  }

  function IncrementWarmUsed(db: Db, tenant: Uuid, date: int): Db {
    var key := (tenant, date);
    if key in db.quotas then db.(quotas := db.quotas[key := db.quotas[key].(warmUsed := db.quotas[key].warmUsed + 1)])
    else db
  }

  // ---------------------------------------------------------------- outbox

  function MarkProcessed(rows: seq<OutboxRow>, ids: seq<nat>): seq<OutboxRow> {
    seq(|rows|, i requires 0 <= i < |rows| => if i in ids then rows[i].(processed := true) else rows[i])
  }

  /** GetPendingMessages: up to the limit of pending due rows, each once, by publish time. */
  predicate IsBatch(rows: seq<OutboxRow>, now: Time, limit: nat, ids: seq<nat>) {
    |ids| <= limit &&
    (forall i :: 0 <= i < |ids| ==> ids[i] < |rows| && !rows[ids[i]].processed && rows[ids[i]].publishAt <= now) &&
    (forall i, j :: 0 <= i < j < |ids| ==> ids[i] != ids[j] && rows[ids[i]].publishAt <= rows[ids[j]].publishAt)
  }

  /** The same rows in the same places, some more of them marked as processed. */
  predicate OnlyMarked(a: seq<OutboxRow>, b: seq<OutboxRow>) {
    |a| == |b| &&
    forall i :: 0 <= i < |a| ==> b[i] == a[i].(processed := b[i].processed) && (a[i].processed ==> b[i].processed)
  }

  // ---------------------------------------------------------------- campaign lifecycle

  function StartCampaign(db: Db, campaign: Uuid): Db {
    if campaign in db.campaigns && db.campaigns[campaign].status == Draft
    then db.(campaigns := db.campaigns[campaign := db.campaigns[campaign].(status := Processing)])
    else db
  }

  function StopCampaign(db: Db, campaign: Uuid): Db {
    if campaign in db.campaigns
    then db.(campaigns := db.campaigns[campaign := db.campaigns[campaign].(status := Stopped)])
    else db
  }

  predicate ReadyToStart(c: Campaign, now: Time) {
    (c.status == Draft || c.status == Processing) && !c.deleted &&
    (c.startImmediately || (c.timeToStart.Some? && c.timeToStart.value <= now))
  }
}
