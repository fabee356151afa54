/** How worker results and callbacks turn into repository calls, and what redelivering them does. */
module Results {
  import opened Domain
  import opened Settings
  import opened Tables
  import opened Protocol
  import opened Runs

  /** Parses a textual UUID; the library that does it is not part of this model. */
  type UuidParser = string -> Option<Uuid>

  datatype TargetResult = TargetResult(
    targetId: Uuid,
    campaignId: Uuid,
    tenantId: Uuid,
    tenantAccountId: Uuid,
    accountId: string,
    phone: Phone,
    status: TaskStatus,
    replyText: Option<string>,
    errorCode: string,
    errorMessage: Option<string>,
    timestamp: Time,
    chatId: string,
    messengerType: string)

  // ---------------------------------------------------------------- classification of results

  predicate IsSendFailureResult(r: TargetResult) {
    if r.status in {Failed, DeliveryUnknown, RetryPending} then true
    else if r.errorCode == "" then false
    else ClassifyErrorCode(r.errorCode) in {Retryable, Unknown} && r.status !in {Sent, Delivered, Viewed, Replied}
  }

  predicate IsAdminNotificationResult(r: TargetResult) {
    r.status == Sent && r.targetId == NIL && r.campaignId == NIL
  }

  function ResultAccountID(parse: UuidParser, r: TargetResult): Uuid {
    if r.tenantAccountId != NIL then r.tenantAccountId
    else if TrimSpace(r.accountId) != "" && parse(TrimSpace(r.accountId)).Some? then parse(TrimSpace(r.accountId)).value
    else NIL
  }

  function ReplyAccountID(reported: Uuid, dosedBy: Option<Uuid>): Uuid {
    if reported != NIL then reported
    else if dosedBy.Some? then dosedBy.value
    else NIL
  }

  // ---------------------------------------------------------------- routing

  function FailureCode(r: TargetResult): string {
    var code := TrimSpace(r.errorCode);
    if code == "" && r.status == DeliveryUnknown then DELIVERY_UNKNOWN else code
  }

  function FailureAccount(parse: UuidParser, r: TargetResult): Uuid {
    if r.tenantAccountId == NIL && r.accountId != "" && parse(r.accountId).Some? then parse(r.accountId).value
    else r.tenantAccountId
  }

  /** handleSendFailure, read at `now`. */
  function FailureCall(c: Config, parse: UuidParser, now: Time, r: TargetResult): RepoCall {
    var code, account := FailureCode(r), FailureAccount(parse, r);
    var message := if r.errorMessage.Some? then r.errorMessage.value else "";
    if code == "" then Update(r.targetId, Failed, Some(message), None)
    else
      match ClassifyErrorCode(code)
      case Unknown => MarkUnknown(r.targetId, code, message)
      case Retryable =>
        Retry(r.targetId, account, code, message, now + c.RetryDelay(),
              if IsSessionHealthError(code) && account != NIL then Some(now + c.AccountCooldown()) else None,
              c.maxRetryAttempts)
      case Final => Update(r.targetId, Failed, Some(message), None)
  }

  /** The branches of flush before and after the send failures. */
  function DirectCall(r: TargetResult): (call: RepoCall)
    ensures !call.Retry? && !call.MarkUnknown?
  {
    if r.replyText.Some? && r.status == Replied then Register(r.campaignId, r.phone, r.replyText.value, r.timestamp)
    else if r.status == Viewed then Update(r.targetId, Viewed, r.errorMessage, None)
    else if r.status == UserNotFoundByPhone then
      Update(r.targetId, UserNotFoundByPhone,
             if r.errorMessage.None? then Some("user not found by phone") else r.errorMessage, None)
    else if r.status != Other("") then Update(r.targetId, r.status, r.errorMessage, None)
    else NoCall
  }

  predicate IsHandledAsFailure(r: TargetResult) {
    !(r.replyText.Some? && r.status == Replied) && r.status !in {Viewed, UserNotFoundByPhone} && IsSendFailureResult(r)
  }

  /** The call flush makes for a result whose target is resolved. */
  function Route(c: Config, parse: UuidParser, now: Time, r: TargetResult): RepoCall {
    if IsHandledAsFailure(r) then FailureCall(c, parse, now, r) else DirectCall(r)
  }

  /** UpdateTargetStatusWithCode: NoCall means the callback is left to the result consumer. */
  function CallbackCall(target: Uuid, status: TaskStatus, errorCode: string, lastError: string,
                        sentAt: Option<Time>): RepoCall {
    var trimmed := TrimSpace(errorCode);
    var code := if trimmed == "" && status == DeliveryUnknown then DELIVERY_UNKNOWN else trimmed;
    if status in {Failed, DeliveryUnknown, RetryPending} && code != "" &&
      ClassifyErrorCode(code) in {Retryable, Unknown}
    then NoCall
    else Update(target, status, if lastError != "" then Some(lastError) else None, sentAt)
  }

  // ---------------------------------------------------------------- effect of a call

  function ApplyCall(c: Config, db: Db, now: Time, call: RepoCall, chosen: Uuid): Db {
    match call
    case Retry(target, account, code, message, next, until, max) =>
      ApplyRetryableFailure(db, target, account, code, message, next, until, max)
    case _ => ReportDb(c, db, now, call, chosen)
  }

  /** Whether the repository call returns without an error. */
  predicate CallSucceeds(db: Db, call: RepoCall, chosen: Uuid) {
    match call
    case NoCall => true
    case Update(target, status, _, _) => Reportable(db, target, status)
    case MarkUnknown(_, _, _) => true
    case Register(campaign, phone, _, _) => Registrable(db, campaign, phone, chosen)
    case Retry(target, _, _, _, _, _, _) => target in db.targets
  }

  function FailureOf(parse: UuidParser, now: Time, r: TargetResult): Failure {
    Failure(r.targetId, FailureAccount(parse, r), FailureCode(r), if r.errorMessage.Some? then r.errorMessage.value
            else "", now)
  }

  lemma RetryCarriesFailure(c: Config, parse: UuidParser, now: Time, r: TargetResult)
    requires FailureCall(c, parse, now, r).Retry?
    ensures var f := FailureOf(parse, now, r);
            ClassifyErrorCode(f.code) == Retryable &&
            FailureCall(c, parse, now, r) == Retry(f.target, f.account, f.code, f.message, now + c.RetryDelay(),
                                                   CooldownFor(c, f), c.maxRetryAttempts)
  {
  }

  lemma RetryIsFailureDb(c: Config, db: Db, at: Time, f: Failure, chosen: Uuid)
    ensures ApplyCall(c, db, at,
                      Retry(f.target, f.account, f.code, f.message, f.readAt + c.RetryDelay(), CooldownFor(c, f),
                                       c.maxRetryAttempts), chosen) ==
            FailureDb(c, db, f)
  {
  }

  /** A retryable failure reaches the repository with the times the protocol's failure step gives it. */
  lemma FailureCallMatchesProtocol(c: Config, parse: UuidParser, now: Time, r: TargetResult, db: Db, chosen: Uuid,
                                   at: Time)
    requires FailureCall(c, parse, now, r).Retry?
    ensures ClassifyErrorCode(FailureCode(r)) == Retryable &&
            ApplyCall(c, db, at, FailureCall(c, parse, now, r), chosen) == FailureDb(c, db, FailureOf(parse, now, r))
  {
    RetryCarriesFailure(c, parse, now, r);
    RetryIsFailureDb(c, db, at, FailureOf(parse, now, r), chosen);
  }

  /** The protocol steps that one handled result takes. */
  function StepsOf(parse: UuidParser, r: TargetResult, call: RepoCall, chosen: Uuid): seq<Step> {
    if call.Retry? then
      [Elsewhere(ReadFailure(r.targetId, FailureAccount(parse, r), FailureCode(r),
                             if r.errorMessage.Some? then r.errorMessage.value else "")),
       Elsewhere(ApplyFailure)]
    else [Elsewhere(Report(call, chosen))]
  }

  lemma FailureSteps(c: Config, w: World, f: Failure)
    requires w.failure.None? && ClassifyErrorCode(f.code) == Retryable && f.readAt == w.now
    ensures var s, t := Elsewhere(ReadFailure(f.target, f.account, f.code, f.message)), Elsewhere(ApplyFailure);
            Enabled(c, w, s) && Enabled(c, Next(c, w, s), t) &&
            Next(c, Next(c, w, s), t).db == FailureDb(c, w.db, f)
  {
  }

  /** Whatever a worker reports, handling it is a legal stretch of the protocol with the same effect on the tables. */
  lemma HandlingIsProtocolRun(c: Config, parse: UuidParser, w: World, r: TargetResult, chosen: Uuid)
    requires w.failure.None?
    ensures var call := Route(c, parse, w.now, r);
            var steps := StepsOf(parse, r, call, chosen);
            Legal(c, w, steps) && Run(c, w, steps).db == ApplyCall(c, w.db, w.now, call, chosen)
  {
    var call := Route(c, parse, w.now, r);
    if call.Retry? {
      FailureCallMatchesProtocol(c, parse, w.now, r, w.db, chosen, w.now);
      var f := FailureOf(parse, w.now, r);
      FailureSteps(c, w, f);
      TwoSteps(c, w, Elsewhere(ReadFailure(f.target, f.account, f.code, f.message)), Elsewhere(ApplyFailure));
    } else {
      OneStep(c, w, Elsewhere(Report(call, chosen)));
    }
  }

  // ---------------------------------------------------------------- the verdict on an attempt

  /** How a result's code is taken: a missing one is final, except on delivery_unknown. */
  function CodeDisposition(r: TargetResult): Disposition {
    if TrimSpace(r.errorCode) == "" then (if r.status == DeliveryUnknown then Unknown else Final)
    else ClassifyErrorCode(r.errorCode)
  }

  lemma ClassifyTrimmed(code: string)
    ensures ClassifyErrorCode(TrimSpace(code)) == ClassifyErrorCode(code)
  {
    TrimSpaceIdempotent(code);
  }

  lemma FailureCodeDecides(r: TargetResult)
    ensures CodeDisposition(r) == if FailureCode(r) == "" then Final else ClassifyErrorCode(FailureCode(r))
  {
    if TrimSpace(r.errorCode) == "" {
      DeliveryUnknownIsUnknown();
    } else {
      ClassifyTrimmed(r.errorCode);
    }
  }

  lemma FailureByDisposition(c: Config, parse: UuidParser, now: Time, r: TargetResult)
    ensures var call := FailureCall(c, parse, now, r);
            match CodeDisposition(r)
            case Unknown => call.MarkUnknown? && call.target == r.targetId
            case Retryable => call.Retry? && call.target == r.targetId && call.maxAttempts == c.maxRetryAttempts
            case Final => call.Update? && call.target == r.targetId && call.status == Failed
  {
    FailureCodeDecides(r);
  }

  lemma FailuresAreByCode(r: TargetResult)
    requires !r.status.Other? && !(r.replyText.Some? && r.status == Replied)
    ensures IsHandledAsFailure(r) <==>
            r.status in {Failed, DeliveryUnknown, RetryPending} || (r.status == Pending && CodeDisposition(r) != Final)
  {
    if TrimSpace(r.errorCode) == "" {
      ClassifyTrimmed(r.errorCode);
      BlankIsFinal();
    }
  }

  /** What each kind of call makes of a target in flight. */
  lemma CallVerdict(c: Config, db: Db, now: Time, call: RepoCall, chosen: Uuid)
    requires call.Update? || call.MarkUnknown? || (call.Retry? && call.maxAttempts == c.maxRetryAttempts)
    requires call.target in db.targets && db.targets[call.target].campaign in db.campaigns
    requires db.targets[call.target].status == Pending && (call.Update? ==> !call.status.Other?)
    ensures var after := ApplyCall(c, db, now, call, chosen);
            call.target in after.targets &&
            after.targets[call.target].status ==
            if call.Update? then call.status
            else if call.MarkUnknown? then DeliveryUnknown
            else if db.targets[call.target].attempts >= c.MaxAttempts() then Failed
            else RetryPending
  {
  }

  predicate FailureVerdict(r: TargetResult) {
    r.status in {Failed, DeliveryUnknown, RetryPending} || (r.status == Pending && CodeDisposition(r) != Final)
  }

  lemma RouteByVerdict(c: Config, parse: UuidParser, now: Time, r: TargetResult)
    requires !r.status.Other? && !(r.replyText.Some? && r.status == Replied)
    ensures Route(c, parse, now, r) == if FailureVerdict(r) then FailureCall(c, parse, now, r) else DirectCall(r)
    ensures var call := DirectCall(r); call.Update? && call.target == r.targetId && call.status == r.status
  {
    FailuresAreByCode(r);
  }

  lemma VerdictByDisposition(c: Config, parse: UuidParser, db: Db, now: Time, r: TargetResult, chosen: Uuid)
    requires r.targetId in db.targets && db.targets[r.targetId].campaign in db.campaigns
    requires db.targets[r.targetId].status == Pending
    requires !r.status.Other? && !(r.replyText.Some? && r.status == Replied)
    ensures var after := ApplyCall(c, db, now, Route(c, parse, now, r), chosen);
            r.targetId in after.targets &&
            after.targets[r.targetId].status ==
            if FailureVerdict(r) then
              match CodeDisposition(r)
              case Retryable => if db.targets[r.targetId].attempts >= c.MaxAttempts() then Failed else RetryPending
              case Unknown => DeliveryUnknown
              case Final => Failed
            else r.status
  {
    RouteByVerdict(c, parse, now, r);
    FailureByDisposition(c, parse, now, r);
    CallVerdict(c, db, now, Route(c, parse, now, r), chosen);
  }

  lemma BlankByText(code: string)
    ensures TrimSpace(code) == "" <==> ToUpper(TrimSpace(code)) == ""
  {
  }

  lemma CodeDispositionByText(r: TargetResult)
    ensures var text := ToUpper(TrimSpace(r.errorCode));
            CodeDisposition(r) ==
            if text in {"SESSION_EXPIRED", "WORKER_UNAVAILABLE", "MAX_UI_ERROR", "BROWSER_ERROR"} then Retryable
            else if text == "DELIVERY_UNKNOWN" || (text == "" && r.status == DeliveryUnknown) then Unknown
            else Final
  {
    DispositionByText(r.errorCode);
    BlankByText(r.errorCode);
  }

  /**
   The verdict on a target in flight, by reported status and the code's text alone: a success or a missing user
   is taken as reported. A failure, or a `pending` with one of these codes, is retried for the four transient
   codes while attempts are fewer than the configured number (three where that is below one), leaves the
   delivery unknown for that one code and for a missing one on delivery_unknown, and is final for any other.
   */
  lemma InFlightVerdict(c: Config, parse: UuidParser, db: Db, now: Time, r: TargetResult, chosen: Uuid)
    requires r.targetId in db.targets && db.targets[r.targetId].campaign in db.campaigns
    requires db.targets[r.targetId].status == Pending
    requires !r.status.Other? && !(r.replyText.Some? && r.status == Replied)
    ensures var after := ApplyCall(c, db, now, Route(c, parse, now, r), chosen);
            var text := ToUpper(TrimSpace(r.errorCode));
            var transient := text in {"SESSION_EXPIRED", "WORKER_UNAVAILABLE", "MAX_UI_ERROR", "BROWSER_ERROR"};
            var unknown := text == "DELIVERY_UNKNOWN" || (text == "" && r.status == DeliveryUnknown);
            var limit := if c.maxRetryAttempts < 1 then 3 else c.maxRetryAttempts;
            r.targetId in after.targets &&
            after.targets[r.targetId].status ==
            if !(r.status in {Failed, DeliveryUnknown, RetryPending} || (r.status == Pending && (transient || unknown)))
            then r.status
            else if unknown then DeliveryUnknown
            else if transient && db.targets[r.targetId].attempts < limit then RetryPending
            else Failed
  {
    VerdictByDisposition(c, parse, db, now, r, chosen);
    CodeDispositionByText(r);
  }

  // ---------------------------------------------------------------- who may reopen a target

  /** A reported failure with any other code, or none, is written as `failed` with its message and never retried. */
  lemma FinalFailureIsReported(c: Config, parse: UuidParser, now: Time, r: TargetResult)
    requires r.status == Failed && !IsUnsettled(ToUpper(TrimSpace(r.errorCode)))
    ensures Route(c, parse, now, r) ==
            Update(r.targetId, Failed, Some(if r.errorMessage.Some? then r.errorMessage.value else ""), None)
  {
    FinalByText(r.errorCode);
    ClassifyTrimmed(r.errorCode);
  }

  lemma SendFailureByText(r: TargetResult)
    requires r.status == Pending
    ensures IsSendFailureResult(r) <==> IsUnsettled(ToUpper(TrimSpace(r.errorCode)))
  {
    FinalByText(r.errorCode);
    BlankByText(r.errorCode);
    BlankIsFinal();
  }

  lemma ReopensUnlessFailure(c: Config, parse: UuidParser, now: Time, r: TargetResult)
    ensures var call := Route(c, parse, now, r);
            call.Update? && call.status in {Pending, RetryPending} <==> r.status == Pending && !IsSendFailureResult(r)
    ensures var call := Route(c, parse, now, r);
            call.Update? ==> call.status != RetryPending
  {
  }

  /**
   The consumer writes an orchestrator-owned status only for a result that says `pending` without one of the five
   codes that are not final; it never writes retry_pending itself.
   */
  lemma ConsumerReopensExactly(c: Config, parse: UuidParser, now: Time, r: TargetResult)
    ensures var call := Route(c, parse, now, r);
            call.Update? && call.status in {Pending, RetryPending} <==>
            r.status == Pending && !IsUnsettled(ToUpper(TrimSpace(r.errorCode)))
    ensures var call := Route(c, parse, now, r);
            call.Update? ==> call.status != RetryPending
  {
    ReopensUnlessFailure(c, parse, now, r);
    if r.status == Pending { SendFailureByText(r); }
  }

  lemma CallbackByDisposition(target: Uuid, status: TaskStatus, code: string, lastError: string, sentAt: Option<Time>)
    ensures CallbackCall(target, status, code, lastError, sentAt) ==
            if status in {Failed, DeliveryUnknown, RetryPending} &&
               (ClassifyErrorCode(TrimSpace(code)) != Final || (TrimSpace(code) == "" && status == DeliveryUnknown))
            then NoCall
            else Update(target, status, if lastError != "" then Some(lastError) else None, sentAt)
  {
    DeliveryUnknownIsUnknown();
    BlankIsFinal();
  }

  lemma DispositionOfTrimmed(code: string)
    ensures ClassifyErrorCode(TrimSpace(code)) != Final <==> IsUnsettled(ToUpper(TrimSpace(code)))
  {
    FinalByText(code);
    ClassifyTrimmed(code);
  }

  /**
   A callback is left to the consumer exactly when it reports a failure with one of the five codes, in any case and
   padding, or delivery_unknown without a code. Any other is written as it says.
   */
  lemma CallbackByText(target: Uuid, status: TaskStatus, code: string, lastError: string, sentAt: Option<Time>)
    ensures CallbackCall(target, status, code, lastError, sentAt) ==
            if status in {Failed, DeliveryUnknown, RetryPending} &&
               (IsUnsettled(ToUpper(TrimSpace(code))) || (TrimSpace(code) == "" && status == DeliveryUnknown))
            then NoCall
            else Update(target, status, if lastError != "" then Some(lastError) else None, sentAt)
  {
    CallbackByDisposition(target, status, code, lastError, sentAt);
    DispositionOfTrimmed(code);
  }

  /** So `pending` is always written, and retry_pending with a final or missing code. */
  lemma CallbackReopensExactly(target: Uuid, status: TaskStatus, code: string, lastError: string, sentAt: Option<Time>)
    ensures var call := CallbackCall(target, status, code, lastError, sentAt);
            call.Update? && call.status in {Pending, RetryPending} <==>
            status == Pending || (status == RetryPending && !IsUnsettled(ToUpper(TrimSpace(code))))
  {
    CallbackByDisposition(target, status, code, lastError, sentAt);
    DispositionOfTrimmed(code);
  }

  lemma BlankIsFinal()
    ensures ClassifyErrorCode("") == Final
  {
    assert ToUpper(TrimSpace("")) == "";
  }

  /** A reported status takes a settled target out of the settled set in exactly one case. */
  lemma ReportReopensExactly(db: Db, target: Uuid, status: TaskStatus, err: Option<string>, sentAt: Option<Time>,
                             now: Time)
    requires target in db.targets && db.targets[target].campaign in db.campaigns &&
             db.targets[target].status.IsSettled()
    ensures !UpdateTargetStatus(db, target, status, err, sentAt, now).targets[target].status.IsSettled() <==>
            status.IsOrchestratorOwned() && db.targets[target].status.IsErrorStatus()
  {
  }

  /**
   A report makes a target claimable at once exactly when it says retry_pending of one in flight or
   in error whose next attempt time does not hold it back, or pending of one never dosed. Any
   account with a slot can then dose it, without a retry decision.
   */
  lemma ReportReleasesExactly(db: Db, target: Uuid, status: TaskStatus, err: Option<string>, sentAt: Option<Time>,
                              now: Time)
    requires target in db.targets && db.targets[target].campaign in db.campaigns && !db.targets[target].status.Other?
    requires !Claimable(db.targets[target], now)
    ensures var t, after := db.targets[target], UpdateTargetStatus(db, target, status, err, sentAt, now);
            var released :=
              (status == RetryPending && (t.status == Pending || t.status.IsErrorStatus()) &&
               (t.nextAttemptAt.None? || t.nextAttemptAt.value <= now)) ||
              (status == Pending && t.attempts == 0 && (t.status == RetryPending || t.status.IsErrorStatus()));
            (Claimable(after.targets[target], now) <==> released) &&
            forall account, at :: ClaimOutcomeOf(after, now, target, account, at) == Dosed <==>
                                  released && HasDailySlot(db, account, UtcDate(at))
  {
  }

  /** For a failure status, the callback stands back exactly when the consumer would not write a status itself. */
  lemma CallbackDefersToConsumer(c: Config, parse: UuidParser, now: Time, r: TargetResult, lastError: string,
                                 sentAt: Option<Time>)
    requires r.status in {Failed, DeliveryUnknown, RetryPending}
    ensures var call := FailureCall(c, parse, now, r);
            CallbackCall(r.targetId, r.status, r.errorCode, lastError, sentAt) == NoCall <==>
            call.Retry? || call.MarkUnknown?
  {
    var d := DELIVERY_UNKNOWN;
    assert d != "";
  }

  // ---------------------------------------------------------------- redelivery

  lemma UpdateTwice(db: Db, target: Uuid, status: TaskStatus, err: Option<string>, t1: Time, t2: Time)
    requires status != Sent && status != Delivered
    ensures var once := UpdateTargetStatus(db, target, status, err, None, t1);
            UpdateTargetStatus(once, target, status, err, None, t2) == once
  {
    var once := UpdateTargetStatus(db, target, status, err, None, t1);
    if Reportable(db, target, status) {
      var t := once.targets[target];
      assert once.targets[target := t] == once.targets;
      assert once.campaigns[t.campaign := once.campaigns[t.campaign]] == once.campaigns;
    }
  }

  lemma RetryTwice(db: Db, target: Uuid, account: Uuid, code: string, message: string,
                   next1: Time, until1: Option<Time>, next2: Time, until2: Option<Time>, max: int)
    ensures var once := ApplyRetryableFailure(db, target, account, code, message, next1, until1, max);
            ApplyRetryableFailure(once, target, account, code, message, next2, until2, max) == once &&
            IsRetried(FailureOutcomeOf(once, target, max)) == IsRetried(FailureOutcomeOf(db, target, max))
  {
  }

  lemma UnknownTwice(db: Db, target: Uuid, code: string, message: string)
    ensures var once := MarkDeliveryUnknown(db, target, code, message);
            MarkDeliveryUnknown(once, target, code, message) == once
  {
  }

  /** Statuses whose report stamps no send time and so may be repeated freely. */
  predicate Repeatable(r: TargetResult) {
    r.status !in {Sent, Delivered} && !(r.replyText.Some? && r.status == Replied)
  }

  /** Two handlings of one result differ at most in the times of a retry. */
  predicate SameButTimes(a: RepoCall, b: RepoCall) {
    a == b ||
    (a.Retry? && b.Retry? && a.target == b.target && a.account == b.account && a.code == b.code &&
     a.message == b.message && a.maxAttempts == b.maxAttempts)
  }

  predicate RepeatableCall(a: RepoCall) {
    !a.Register? && (a.Update? ==> a.status !in {Sent, Delivered} && a.sentAt.None?)
  }

  lemma RouteRepeats(c: Config, parse: UuidParser, t1: Time, t2: Time, r: TargetResult)
    requires Repeatable(r)
    ensures SameButTimes(Route(c, parse, t1, r), Route(c, parse, t2, r)) && RepeatableCall(Route(c, parse, t1, r))
  {
  }

  lemma CallTwice(c: Config, db: Db, a: RepoCall, b: RepoCall, t1: Time, t2: Time, chosen: Uuid)
    requires SameButTimes(a, b) && RepeatableCall(a)
    ensures ApplyCall(c, ApplyCall(c, db, t1, a, chosen), t2, b, chosen) == ApplyCall(c, db, t1, a, chosen)
    ensures a.Retry? ==> IsRetried(FailureOutcomeOf(ApplyCall(c, db, t1, a, chosen), a.target, a.maxAttempts)) ==
                         IsRetried(FailureOutcomeOf(db, a.target, a.maxAttempts))
  {
    match a
    case Update(target, status, err, _) => UpdateTwice(db, target, status, err, t1, t2);
    case MarkUnknown(target, code, message) => UnknownTwice(db, target, code, message);
    case Retry(target, account, code, message, next, until, max) =>
      RetryTwice(db, target, account, code, message, next, until, b.next, b.cooldownUntil, max);
    case _ =>
  }

  /**
   Handling the same repeatable result again, later, leaves every table as handling it once
   did, for every disposition and although the second call carries later retry and cooldown
   times; for a retried failure the returned flag is the same too.
   */
  lemma RedeliveryIdempotent(c: Config, parse: UuidParser, db: Db, r: TargetResult, t1: Time, t2: Time, chosen: Uuid)
    requires Repeatable(r)
    ensures var call := Route(c, parse, t1, r);
            var once := ApplyCall(c, db, t1, call, chosen);
            ApplyCall(c, once, t2, Route(c, parse, t2, r), chosen) == once &&
            (call.Retry? ==> IsRetried(FailureOutcomeOf(once, call.target, call.maxAttempts)) ==
                             IsRetried(FailureOutcomeOf(db, call.target, call.maxAttempts)))
  {
    RouteRepeats(c, parse, t1, t2, r);
    CallTwice(c, db, Route(c, parse, t1, r), Route(c, parse, t2, r), t1, t2, chosen);
  }

  /** A repeated `delivered` is counted again exactly when a later status suppressed its write. */
  lemma DeliveredCountedTwiceExactly(db: Db, target: Uuid, err: Option<string>, t1: Time, t2: Time)
    requires Reportable(db, target, Delivered)
    ensures var once := UpdateTargetStatus(db, target, Delivered, err, None, t1);
            var twice := UpdateTargetStatus(once, target, Delivered, err, None, t2);
            var k := db.targets[target].campaign;
            k in once.campaigns && k in twice.campaigns &&
            (twice.campaigns[k].processedCount == once.campaigns[k].processedCount + 1 <==>
             db.targets[target].status in {Viewed, Replied})
  {
  }
}
