/** What a worker's failure report leaves in the tables, by the text of its code and the configured minutes. */
module Verdicts {
  import opened Domain
  import opened Settings
  import opened Tables
  import opened Protocol
  import opened Results
  import opened Columns
  import opened Frames

  /** The account a failure is booked on: the current field, or else the legacy one if it is a UUID. */
  predicate IsBookedOn(parse: UuidParser, r: TargetResult, account: Uuid) {
    if r.tenantAccountId != NIL then account == r.tenantAccountId
    else if r.accountId != "" && parse(r.accountId).Some? then Some(account) == parse(r.accountId)
    else account == NIL
  }

  /** Reported as neither sent nor read nor answered nor without an addressee. */
  predicate MayHaveFailed(r: TargetResult) {
    r.status !in {Sent, Delivered, Viewed, Replied, UserNotFoundByPhone}
  }

  predicate IsTransient(text: string) {
    text in {"SESSION_EXPIRED", "WORKER_UNAVAILABLE", "MAX_UI_ERROR", "BROWSER_ERROR"}
  }

  lemma TransientIsFailure(r: TargetResult)
    requires MayHaveFailed(r) && IsTransient(ToUpper(TrimSpace(r.errorCode)))
    ensures IsHandledAsFailure(r) && FailureCode(r) == TrimSpace(r.errorCode) != ""
    ensures ClassifyErrorCode(FailureCode(r)) == Retryable && TrimSpace(FailureCode(r)) == FailureCode(r)
  {
    DispositionByText(r.errorCode);
    ClassifyTrimmed(r.errorCode);
    BlankByText(r.errorCode);
    TrimSpaceIdempotent(r.errorCode);
  }

  lemma TransientIsRetried(c: Config, parse: UuidParser, now: Time, r: TargetResult)
    requires MayHaveFailed(r) && IsTransient(ToUpper(TrimSpace(r.errorCode)))
    ensures var call := Route(c, parse, now, r);
            call.Retry? && call.target == r.targetId && IsBookedOn(parse, r, call.account) &&
            call.code == TrimSpace(r.errorCode) && call.maxAttempts == c.maxRetryAttempts &&
            call.message == (if r.errorMessage.Some? then r.errorMessage.value else "") &&
            call.next == now + (if c.retryDelayMinutes < 1 then 15 else c.retryDelayMinutes) * 60_000_000 &&
            call.cooldownUntil ==
            if ToUpper(TrimSpace(r.errorCode)) in {"SESSION_EXPIRED", "BROWSER_ERROR"} && call.account != NIL
            then Some(now + (if c.accountCooldownMinutes < 1 then 60 else c.accountCooldownMinutes) * 60_000_000)
            else None
  {
    TransientIsFailure(r);
  }

  /**
   A transient failure of a target in flight, whatever form its code has: the target waits for a retry after the
   configured delay, or has failed where its attempts are used up, with code and message noted. No other row of any
   table changes, but for the account's cooldown.
   */
  lemma TransientFailureVerdict(c: Config, parse: UuidParser, db: Db, now: Time, r: TargetResult, chosen: Uuid)
    requires r.targetId in db.targets && db.targets[r.targetId].status == Pending && MayHaveFailed(r)
    requires IsTransient(ToUpper(TrimSpace(r.errorCode)))
    ensures var after, t := ApplyCall(c, db, now, Route(c, parse, now, r), chosen), db.targets[r.targetId];
            var limit := if c.maxRetryAttempts < 1 then 3 else c.maxRetryAttempts;
            var delay := (if c.retryDelayMinutes < 1 then 15 else c.retryDelayMinutes) * 60_000_000;
            var message := if r.errorMessage.Some? then r.errorMessage.value else "";
            var noted := t.(lastError := Some(message), lastErrorCode := Some(TrimSpace(r.errorCode)),
                            lastErrorMessage := Some(message));
            after.targets ==
            db.targets[r.targetId := if t.attempts < limit
                                     then noted.(status := RetryPending, nextAttemptAt := Some(now + delay))
                                     else noted.(status := Failed, nextAttemptAt := None)] &&
            after == db.(targets := after.targets, accounts := after.accounts)
  {
    TransientIsRetried(c, parse, now, r);
    var call := Route(c, parse, now, r);
    FailureByColumns(db, call.target, call.account, call.code, call.message, call.next, call.cooldownUntil,
                     call.maxAttempts);
  }

  /**
   A message sent, delivered or viewed, or one whose addressee is missing, is taken as reported whatever is stored: the
   status unless it gives way, the message as last error, with a default for a missing addressee, and the consumer's
   clock as time of sending. A code that comes with it decides nothing.
   */
  lemma TakenAsReported(c: Config, parse: UuidParser, db: Db, now: Time, r: TargetResult, chosen: Uuid)
    requires r.targetId in db.targets && db.targets[r.targetId].campaign in db.campaigns
    requires r.status in {Sent, Delivered, Viewed, UserNotFoundByPhone}
    ensures var after, t := ApplyCall(c, db, now, Route(c, parse, now, r), chosen), db.targets[r.targetId];
            after.targets ==
            db.targets[r.targetId :=
                         t.(status := if GivesWay(t.status, r.status) then t.status else r.status,
                            lastError := if r.status == UserNotFoundByPhone && r.errorMessage.None?
                                         then Some("user not found by phone") else r.errorMessage,
                            sentAt := if r.status in {Sent, Delivered} then Some(now) else t.sentAt)]
  {
    var call := Route(c, parse, now, r);
    DirectlyReported(c, parse, now, r);
    ReportByColumns(db, r.targetId, r.status, call.lastError, None, now);
  }

  lemma DirectlyReported(c: Config, parse: UuidParser, now: Time, r: TargetResult)
    requires r.status in {Sent, Delivered, Viewed, UserNotFoundByPhone}
    ensures Route(c, parse, now, r) ==
            Update(r.targetId, r.status,
                   if r.status == UserNotFoundByPhone && r.errorMessage.None? then Some("user not found by phone")
                   else r.errorMessage, None)
  {
  }

  lemma RetriedMayHaveFailed(c: Config, parse: UuidParser, now: Time, r: TargetResult)
    requires Route(c, parse, now, r).Retry?
    ensures MayHaveFailed(r) && IsTransient(ToUpper(TrimSpace(r.errorCode)))
  {
    if TrimSpace(r.errorCode) == "" {
      DeliveryUnknownIsUnknown();
    }
    DispositionByText(r.errorCode);
    ClassifyTrimmed(r.errorCode);
  }

  /**
   Over all results, an account cools down exactly when one of the two session codes, in any case and padding, is
   reported of an undecided target, with the account it is booked on known and not disabled; then for the configured
   time from the consumer's clock. No other report touches an account.
   */
  lemma SessionCodesCoolDown(c: Config, parse: UuidParser, db: Db, now: Time, r: TargetResult, chosen: Uuid)
    returns (account: Uuid)
    ensures IsBookedOn(parse, r, account)
    ensures var after := ApplyCall(c, db, now, Route(c, parse, now, r), chosen);
            var cooldown := (if c.accountCooldownMinutes < 1 then 60 else c.accountCooldownMinutes) * 60_000_000;
            var cools := ToUpper(TrimSpace(r.errorCode)) in {"SESSION_EXPIRED", "BROWSER_ERROR"} && MayHaveFailed(r) &&
              r.targetId in db.targets && !IsDecided(db.targets[r.targetId].status) &&
              account != NIL && account in db.accounts && db.accounts[account].status != Disabled;
            after.accounts ==
            if cools
            then db.accounts[account := db.accounts[account].(status := Cooldown,
                                                              cooldownUntil := Some(now + cooldown))]
            else db.accounts
  {
    account := FailureAccount(parse, r);
    var call := Route(c, parse, now, r);
    if call.Retry? {
      RetriedMayHaveFailed(c, parse, now, r);
    }
    if MayHaveFailed(r) && IsTransient(ToUpper(TrimSpace(r.errorCode))) {
      TransientIsRetried(c, parse, now, r);
      TrimSpaceIdempotent(r.errorCode);
      CooldownByColumns(db, call.target, call.account, call.code, call.message, call.next, call.cooldownUntil,
                        call.maxAttempts);
      assert call.account == account;
    } else {
      ReportFrame(c, db, now, call, chosen);
    }
  }
}
