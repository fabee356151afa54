/**
 The dosing protocol as a state machine: k dosers, one result consumer, the scheduler,
 reporting callbacks and the environment interleave at the grain of one repository call.
 The log records what happened; no step reads it except to append.
 */
module Protocol {
  import opened Domain
  import opened Settings
  import opened Tables

  /** What a doser remembers of the tick it is in; mark is the log length at its account listing. */
  datatype Tick = Tick(tenant: Uuid, at: Time, accounts: seq<Uuid>, mark: nat)

  /** Where a doser stands between two repository calls. */
  datatype Phase =
    | Idle
    | Deferring(tenant: Uuid, at: Time)
    | Listed(tick: Tick)
    | Provisioned(tick: Tick)
    | Quoted(tick: Tick, quota: Quota)
    | WarmDone(tick: Tick, quota: Quota)
    | Chosen(tick: Tick, view: PendingTarget, account: Uuid, cold: bool, interval: Time)
    | SlotHeld(tick: Tick, view: PendingTarget, account: Uuid)
    | WarmOwed(tick: Tick)

  /** A retryable failure whose handler has read the clock but not yet called the repository. */
  datatype Failure = Failure(target: Uuid, account: Uuid, code: string, message: string, readAt: Time)

  datatype Event =
    | DoseEvent(target: Uuid, campaign: Uuid, account: Uuid, time: Time, tickAt: Time, mark: nat)
    | RetryEvent(target: Uuid, readAt: Time)
    | ExhaustEvent(target: Uuid, campaign: Uuid)
    | UnknownEvent(target: Uuid, campaign: Uuid)
    | CoolEvent(account: Uuid, until: Time)
    | SlotEvent(tenant: Uuid, date: int, at: Time)
    | LostWarmEvent(tenant: Uuid, date: int)

  datatype World = World(
    db: Db,
    dosers: seq<Phase>,
    now: Time,
    failure: Option<Failure>,
    ready: set<Uuid>,
    log: seq<Event>)

  /** The calls by which results and callbacks touch a target outside ApplyRetryableFailure. */
  datatype RepoCall =
    | NoCall
    | Update(target: Uuid, status: TaskStatus, lastError: Option<string>, sentAt: Option<Time>)
    | MarkUnknown(target: Uuid, code: string, message: string)
    | Register(campaign: Uuid, phone: Phone, text: string, at: Time)
    | Retry(target: Uuid, account: Uuid, code: string, message: string,
            next: Time, cooldownUntil: Option<Time>, maxAttempts: int)

  /** What doser number i may do next, one repository call at a time. */
  datatype DoserStep =
    | ListAccounts(tenant: Uuid, at: Time)
    | Defer
    | EnsureQuotaRow(limit: int)
    | ReadQuota
    | ChooseWarm(target: Uuid, account: Uuid)
    | SkipWarm
    | ChooseCold(target: Uuid, account: Uuid, interval: Time)
    | ReserveSlot
    | ClaimTarget
    | CountWarm
    | GiveUp

  /** What everything else may do next. */
  datatype OtherStep =
    | Advance(to: Time)
    | ReadFailure(target: Uuid, account: Uuid, code: string, message: string)
    | ApplyFailure
    | DropFailure
    | Report(call: RepoCall, chosen: Uuid)
    | ListReady
    | StartListed(campaign: Uuid)
    | Stop(campaign: Uuid)
    | SetMappings(mappings: map<ChatKey, ChatMapping>)
    | Block(tenant: Uuid, phone: Phone)
    | MarkRows(ids: seq<nat>)

  datatype Step = Doser(i: nat, d: DoserStep) | Elsewhere(o: OtherStep)

  // ---------------------------------------------------------------- counting dosers

  /** What a phase may be counted as holding. */
  datatype Claimed =
    | WarmPermit(tenant: Uuid, date: int)  // has seen warm quota left and may still count a warm send
    | WarmDebt(tenant: Uuid, date: int)    // has dosed warm and not yet counted it
    | ColdSlot(tenant: Uuid, date: int)    // has reserved a cold slot and not yet claimed
    | HeldTarget(campaign: Uuid)           // has selected a target of the campaign

  predicate Holds(c: Config, p: Phase, k: Claimed) {
    match k
    case WarmPermit(tenant, date) =>
      (p.Quoted? && p.tick.tenant == tenant && c.LocalDate(p.tick.at) == date && p.quota.warmUsed < c.limitWarmDaily) ||
      (p.Chosen? && !p.cold && p.tick.tenant == tenant && c.LocalDate(p.tick.at) == date) ||
      (p.WarmOwed? && p.tick.tenant == tenant && c.LocalDate(p.tick.at) == date)
    case WarmDebt(tenant, date) => p.WarmOwed? && p.tick.tenant == tenant && c.LocalDate(p.tick.at) == date
    case ColdSlot(tenant, date) => p.SlotHeld? && p.tick.tenant == tenant && c.LocalDate(p.tick.at) == date
    case HeldTarget(campaign) => (p.Chosen? || p.SlotHeld?) && p.view.campaignId == campaign
  }

  function CountHolding(c: Config, dosers: seq<Phase>, k: Claimed): (n: nat)
    ensures n <= |dosers|
  {
    if dosers == [] then 0
    else CountHolding(c, dosers[1..], k) + if Holds(c, dosers[0], k) then 1 else 0
  }

  // ---------------------------------------------------------------- steps

  function CooldownFor(c: Config, f: Failure): Option<Time> {
    if IsSessionHealthError(f.code) && f.account != NIL then Some(f.readAt + c.AccountCooldown()) else None
  }

  predicate MayChoose(p: Phase, account: Uuid) {
    (p.Quoted? || p.WarmDone?) && account in p.tick.accounts
  }

  /** The cold checks of doseTenant, all made on the tick's own clock reading and quota row. */
  predicate ColdAllowed(c: Config, at: Time, quota: Quota, interval: Time) {
    c.IsWithinWorkWindow(at) && quota.coldUsed < quota.coldLimit && c.IsColdInterval(interval) &&
    (quota.lastColdPublishAt.Some? ==> at - quota.lastColdPublishAt.value >= interval)
  }

  predicate DoserEnabled(c: Config, w: World, p: Phase, d: DoserStep) {
    match d
    case ListAccounts(tenant, at) => p.Idle? && at <= w.now
    case Defer => p.Deferring?
    case EnsureQuotaRow(limit) => p.Listed? && c.IsColdLimit(limit)
    case ReadQuota => p.Provisioned? && (p.tick.tenant, c.LocalDate(p.tick.at)) in w.db.quotas
    case ChooseWarm(target, account) =>
      p.Quoted? && MayChoose(p, account) && p.quota.warmUsed < c.limitWarmDaily &&
      Selectable(w.db, w.now, p.tick.tenant, true, target)
    case SkipWarm => p.Quoted?
    case ChooseCold(target, account, interval) =>
      p.WarmDone? && MayChoose(p, account) && ColdAllowed(c, p.tick.at, p.quota, interval) &&
      Selectable(w.db, w.now, p.tick.tenant, false, target)
    case ReserveSlot => p.Chosen? && p.cold
    case ClaimTarget => p.SlotHeld? || (p.Chosen? && !p.cold)
    case CountWarm => p.WarmOwed?
    case GiveUp => true
  }

  predicate OtherEnabled(c: Config, w: World, o: OtherStep) {
    match o
    case Advance(to) => w.now <= to
    case ReadFailure(_, _, code, _) => w.failure.None? && ClassifyErrorCode(code) == Retryable
    case ApplyFailure => w.failure.Some?
    case DropFailure => w.failure.Some?
    case Report(call, _) => !call.Retry?
    case StartListed(campaign) => campaign in w.ready
    case _ => true
  }

  predicate Enabled(c: Config, w: World, s: Step) {
    match s
    case Doser(i, d) => i < |w.dosers| && DoserEnabled(c, w, w.dosers[i], d)
    case Elsewhere(o) => OtherEnabled(c, w, o)
  }

  // The effect of a doser's step on the tables, on its own phase and on the log.

  function ClaimOf(w: World, p: Phase): ClaimOutcome
    requires p.SlotHeld? || p.Chosen?
  {
    ClaimOutcomeOf(w.db, w.now, p.view.targetId, p.account, p.tick.at)
  }

  function DoserDb(c: Config, w: World, p: Phase, d: DoserStep): Db
    requires DoserEnabled(c, w, p, d)
  {
    match d
    case Defer => DeferRetries(w.db, p.tenant, c.NextDayWorkStart(p.at), w.now)
    case EnsureQuotaRow(limit) => EnsureQuota(w.db, p.tick.tenant, c.LocalDate(p.tick.at), limit)
    case ReserveSlot => TryReserveColdSlot(w.db, p.tick.tenant, c.LocalDate(p.tick.at), p.tick.at, p.interval)
    case ClaimTarget =>
      Claim(w.db, w.now, p.view.targetId, p.view.tenantId, p.account, EventFor(p.view, p.SlotHeld?),
            BuildTask(p.view, p.account, p.SlotHeld?), p.tick.at)
    case CountWarm => IncrementWarmUsed(w.db, p.tick.tenant, c.LocalDate(p.tick.at))
    case _ => w.db
  }

  function DoserPhase(c: Config, w: World, p: Phase, d: DoserStep): Phase
    requires DoserEnabled(c, w, p, d)
  {
    match d
    case ListAccounts(tenant, at) =>
      var accounts := Listing(w.db, w.db.accountOrder, tenant, c.LocalDate(at), at);
      if accounts == [] then Deferring(tenant, at) else Listed(Tick(tenant, at, accounts, |w.log|))
    case EnsureQuotaRow(_) => Provisioned(p.tick)
    case ReadQuota => Quoted(p.tick, w.db.quotas[(p.tick.tenant, c.LocalDate(p.tick.at))])
    case ChooseWarm(target, account) => Chosen(p.tick, PendingView(w.db, true, target), account, false, 0)
    case SkipWarm => WarmDone(p.tick, p.quota)
    case ChooseCold(target, account, interval) =>
      Chosen(p.tick, PendingView(w.db, false, target), account, true, interval)
    case ReserveSlot =>
      if SlotAvailable(w.db, p.tick.tenant, c.LocalDate(p.tick.at), p.tick.at, p.interval)
      then SlotHeld(p.tick, p.view, p.account) else Idle
    case ClaimTarget => if p.Chosen? && ClaimOf(w, p) != Refused then WarmOwed(p.tick) else Idle
    case _ => Idle
  }

  function DoserEvents(c: Config, w: World, p: Phase, d: DoserStep): seq<Event>
    requires DoserEnabled(c, w, p, d)
  {
    match d
    case ReserveSlot =>
      if SlotAvailable(w.db, p.tick.tenant, c.LocalDate(p.tick.at), p.tick.at, p.interval)
      then [SlotEvent(p.tick.tenant, c.LocalDate(p.tick.at), p.tick.at)] else []
    case ClaimTarget =>
      if ClaimOf(w, p) == Dosed
      then [DoseEvent(p.view.targetId, p.view.campaignId, p.account, w.now, p.tick.at, p.tick.mark)] else []
    case GiveUp => if p.WarmOwed? then [LostWarmEvent(p.tick.tenant, c.LocalDate(p.tick.at))] else []
    case _ => []
  }

  // The effect of the other steps on the tables and on the log.

  function FailureDb(c: Config, db: Db, f: Failure): Db {
    ApplyRetryableFailure(db, f.target, f.account, f.code, f.message, f.readAt + c.RetryDelay(), CooldownFor(c, f),
                          c.maxRetryAttempts)
  }

  function CoolEvents(c: Config, db: Db, f: Failure): seq<Event> {
    if CoolsDown(db, f.target, f.account, f.code, CooldownFor(c, f), c.maxRetryAttempts)
    then [CoolEvent(f.account, f.readAt + c.AccountCooldown())] else []
  }

  function OutcomeEvents(c: Config, db: Db, f: Failure): seq<Event> {
    match FailureOutcomeOf(db, f.target, c.maxRetryAttempts)
    case Rescheduled => [RetryEvent(f.target, f.readAt)]
    case Exhausted => [ExhaustEvent(f.target, db.targets[f.target].campaign)]
    case _ => []
  }

  function FailureEvents(c: Config, db: Db, f: Failure): seq<Event> {
    CoolEvents(c, db, f) + OutcomeEvents(c, db, f)
  }

  function ReportDb(c: Config, db: Db, now: Time, call: RepoCall, chosen: Uuid): Db {
    match call
    case Update(target, status, lastError, sentAt) => UpdateTargetStatus(db, target, status, lastError, sentAt, now)
    case MarkUnknown(target, code, message) => MarkDeliveryUnknown(db, target, code, message)
    case Register(campaign, phone, text, at) =>
      RegisterReply(db, campaign, phone, text, at, c.IsUnsubscribeReply(text), chosen)
    case _ => db
  }

  function ReportEvents(db: Db, call: RepoCall): seq<Event> {
    match call
    case MarkUnknown(target, _, _) =>
      if Unknowable(db, target) then [UnknownEvent(target, db.targets[target].campaign)] else []
    case _ => []
  }

  function OtherDb(c: Config, w: World, o: OtherStep): Db
    requires OtherEnabled(c, w, o)
  {
    match o
    case ApplyFailure => FailureDb(c, w.db, w.failure.value)
    case Report(call, chosen) => ReportDb(c, w.db, w.now, call, chosen)
    case StartListed(campaign) => StartCampaign(w.db, campaign)
    case Stop(campaign) => StopCampaign(w.db, campaign)
    case SetMappings(mappings) => w.db.(mappings := mappings)
    case Block(tenant, phone) => w.db.(blocked := w.db.blocked + {(tenant, phone)})
    case MarkRows(ids) => w.db.(outbox := MarkProcessed(w.db.outbox, ids))
    case _ => w.db
  }

  function OtherEvents(c: Config, w: World, o: OtherStep): seq<Event>
    requires OtherEnabled(c, w, o)
  {
    match o
    case ApplyFailure => FailureEvents(c, w.db, w.failure.value)
    case Report(call, _) => ReportEvents(w.db, call)
    case _ => []
  }

  function OtherFailure(w: World, o: OtherStep): Option<Failure> {
    match o
    case ReadFailure(target, account, code, message) => Some(Failure(target, account, code, message, w.now))
    case ApplyFailure | DropFailure => None
    case _ => w.failure
  }

  /** Campaigns the scheduler has listed: each may be started at any later time, however stale the list is by then. */
  function OtherReady(w: World, o: OtherStep): set<Uuid> {
    match o
    case ListReady =>
      w.ready + set id | id in w.db.campaigns && ReadyToStart(w.db.campaigns[id], w.now) &&
      w.db.campaigns[id].status == Draft
    case _ => w.ready
  }

  function DoserNext(c: Config, w: World, i: nat, d: DoserStep): World
    requires i < |w.dosers| && DoserEnabled(c, w, w.dosers[i], d)
  {
    var p := w.dosers[i];
    w.(db := DoserDb(c, w, p, d), dosers := w.dosers[i := DoserPhase(c, w, p, d)],
       log := w.log + DoserEvents(c, w, p, d))
  }

  function OtherNext(c: Config, w: World, o: OtherStep): World
    requires OtherEnabled(c, w, o)
  {
    w.(db := OtherDb(c, w, o), now := if o.Advance? then o.to else w.now, failure := OtherFailure(w, o),
       ready := OtherReady(w, o), log := w.log + OtherEvents(c, w, o))
  }

  function Next(c: Config, w: World, s: Step): World
    requires Enabled(c, w, s)
  {
    match s
    case Doser(i, d) => DoserNext(c, w, i, d)
    case Elsewhere(o) => OtherNext(c, w, o)
  }

  // ---------------------------------------------------------------- runs

  predicate Legal(c: Config, w: World, steps: seq<Step>)
    decreases |steps|
  {
    steps == [] || (Enabled(c, w, steps[0]) && Legal(c, Next(c, w, steps[0]), steps[1..]))
  }

  function Run(c: Config, w: World, steps: seq<Step>): World
    requires Legal(c, w, steps)
    decreases |steps|
  {
    if steps == [] then w else Run(c, Next(c, w, steps[0]), steps[1..])
  }

  /** Freshly uploaded campaigns: no attempt made, nothing queued, nothing counted. */
  predicate Initial(c: Config, w: World) {
    c.Valid() && WellFormed(w.db) &&
    (forall id :: id in w.db.targets ==>
       w.db.targets[id].status == Pending && w.db.targets[id].attempts == 0 && w.db.targets[id].nextAttemptAt.None?) &&
    (forall id :: id in w.db.campaigns ==>
       w.db.campaigns[id].status in {Draft, Processing} &&
       w.db.campaigns[id].processedCount == 0 && w.db.campaigns[id].errorCount == 0) &&
    w.db.usage == map[] && w.db.quotas == map[] && w.db.outbox == [] &&
    (forall p :: p in w.dosers ==> p.Idle?) && w.failure.None? && w.ready == {} && w.log == []
  }

  /** Keys and references the schema enforces. */
  predicate WellFormed(db: Db) {
    (forall id :: id in db.targets ==> db.targets[id].campaign in db.campaigns && !db.targets[id].status.Other?) &&
    (forall id :: id in db.accountOrder ==> id in db.accounts)
  }

  // ---------------------------------------------------------------- histories

  datatype Topic =
    | OfTarget(target: Uuid)
    | OfSlots(tenant: Uuid, date: int)
    | OfLosses(campaign: Uuid)
    | OfLostWarm(tenant: Uuid, date: int)

  predicate About(e: Event, k: Topic) {
    match k
    case OfTarget(target) => (e.DoseEvent? || e.RetryEvent?) && e.target == target
    case OfSlots(tenant, date) => e.SlotEvent? && e.tenant == tenant && e.date == date
    case OfLosses(campaign) => (e.ExhaustEvent? || e.UnknownEvent?) && e.campaign == campaign
    case OfLostWarm(tenant, date) => e.LostWarmEvent? && e.tenant == tenant && e.date == date
  }

  /** The events about one topic, in the order they were logged. */
  function History(log: seq<Event>, k: Topic): seq<Event> {
    if log == [] then []
    else
      var n := |log| - 1;
      History(log[..n], k) + if About(log[n], k) then [log[n]] else []
  }

  // ---------------------------------------------------------------- counting rows

  datatype RowKey =
    | ForTarget(target: Uuid)
    | ForUsage(account: Uuid, utcDate: int)
    | ForContact(tenant: Uuid, date: int, contactType: string)
    | ForCampaign(campaign: Uuid)

  predicate IsRowFor(c: Config, r: OutboxRow, k: RowKey) {
    match k
    case ForTarget(target) => r.task.taskId == target
    case ForUsage(account, date) => r.account == account && UtcDate(r.publishAt) == date
    case ForContact(tenant, date, contactType) =>
      r.tenant == tenant && c.LocalDate(r.publishAt) == date && r.task.contactType == contactType
    case ForCampaign(campaign) => r.task.campaignId == campaign
  }

  function CountRows(c: Config, rows: seq<OutboxRow>, k: RowKey): (n: nat)
    ensures n <= |rows|
  {
    if rows == [] then 0
    else
      var n := |rows| - 1;
      CountRows(c, rows[..n], k) + if IsRowFor(c, rows[n], k) then 1 else 0
  }

  // ---------------------------------------------------------------- sums over tables

  ghost function Total<K(!new)>(m: map<K, nat>): nat
    decreases |m|
  {
    if m == map[] then 0
    else
      var k :| k in m;
      m[k] + Total(m - {k})
  }

  function Attempts(targets: map<Uuid, Target>): map<Uuid, nat> {
    map id | id in targets :: targets[id].attempts
  }
}
