/**
 The repository calls read off their columns: which rows each call accepts and what it leaves in every column,
 in the statuses, dates and limits that the tables and the configuration themselves hold.
 */
module Columns {
  import opened Domain
  import opened Settings
  import opened Tables
  import opened Scheduling

  // ---------------------------------------------------------------- listing and selection

  /**
   An account is listed exactly when it is of the tenant, not disabled, in no cooldown that lies ahead,
   and used less than its limit on that date.
   */
  lemma {:induction false} ListedByColumns(db: Db, order: seq<Uuid>, tenant: Uuid, date: int, now: Time)
    ensures forall id :: id in Listing(db, order, tenant, date, now) <==>
              id in order && id in db.accounts && db.accounts[id].tenant == tenant &&
              db.accounts[id].status != Disabled &&
              !(db.accounts[id].status == Cooldown && db.accounts[id].cooldownUntil.Some? &&
                now < db.accounts[id].cooldownUntil.value) &&
              (if (id, date) in db.usage then db.usage[(id, date)] else 0) < db.accounts[id].dailyLimit
  {
    if order != [] { ListedByColumns(db, order[1..], tenant, date, now); }
  }

  /** Accounts are listed in their stored order, each at most once for each place it is stored at. */
  lemma {:induction false} ListingKeepsOrder(db: Db, first: seq<Uuid>, rest: seq<Uuid>, tenant: Uuid, date: int,
                                             now: Time)
    ensures Listing(db, first + rest, tenant, date, now) ==
            Listing(db, first, tenant, date, now) + Listing(db, rest, tenant, date, now)
    ensures |Listing(db, first, tenant, date, now)| <= |first|
  {
    if first == [] {
      assert first + rest == rest;
    } else {
      assert (first + rest)[1..] == first[1..] + rest;
      ListingKeepsOrder(db, first[1..], rest, tenant, date, now);
    }
  }

  /**
   A target is selectable exactly when it has never been tried, or waits for a retry that is due, in a live
   processing campaign of the tenant, unblocked; as warm if the campaign's tenant knows a chat with its phone
   and messenger, as cold if there is no mapping for them at all.
   */
  lemma SelectedByColumns(db: Db, now: Time, tenant: Uuid, id: Uuid)
    requires id in db.targets && db.targets[id].campaign in db.campaigns
    ensures var t, k := db.targets[id], db.campaigns[db.targets[id].campaign];
            var key := ChatKey(k.tenant, t.phone, t.messengerType);
            var open := k.tenant == tenant && k.status == Processing && !k.deleted && (tenant, t.phone) !in db.blocked;
            var due := (t.status == Pending && t.attempts == 0) ||
                       (t.status == RetryPending && (t.nextAttemptAt.None? || t.nextAttemptAt.value <= now));
            (Selectable(db, now, tenant, true, id) <==>
               open && due && key in db.mappings && db.mappings[key].chatId != "") &&
            (Selectable(db, now, tenant, false, id) <==> open && due && key !in db.mappings)
  {
  }

  // ---------------------------------------------------------------- claim

  /**
   A claim goes through exactly for a target that is due, on an account that has no row for the UTC day or one
   below its limit: then one row is queued, the target is in flight with one attempt more on that account, and
   the day's use grows by one. A due target without such an account is an error, any other target is none.
   */
  lemma ClaimByColumns(db: Db, now: Time, target: Uuid, tenant: Uuid, account: Uuid, eventType: string,
                       task: SendTask, at: Time)
    requires target in db.targets
    ensures var t, slot := db.targets[target], (account, at / 86_400_000_000);
            var used := if slot in db.usage then db.usage[slot] else 0;
            var due := (t.status == Pending && t.attempts == 0) ||
                       (t.status == RetryPending && (t.nextAttemptAt.None? || t.nextAttemptAt.value <= now));
            var room := account in db.accounts && (slot in db.usage ==> used < db.accounts[account].dailyLimit);
            var after := Claim(db, now, target, tenant, account, eventType, task, at);
            ClaimOutcomeOf(db, now, target, account, at) ==
            (if !due then NotEligible else if !room then Refused else Dosed) &&
            after == if due && room then
                       db.(outbox := db.outbox + [OutboxRow(eventType, task, tenant, account, at, false)],
                           targets := db.targets[target := t.(account := Some(account), tenant := tenant,
                                                              status := Pending, attempts := t.attempts + 1,
                                                              nextAttemptAt := None)],
                           usage := db.usage[slot := used + 1])
                     else db
  {
  }

  // ---------------------------------------------------------------- failures

  /** The statuses in which a retryable failure finds nothing to decide. */
  predicate IsDecided(s: TaskStatus) {
    s in {RetryPending, Sent, Delivered, Viewed, Replied, Failed, UserNotFoundByPhone, DeliveryUnknown}
  }

  /**
   A retryable failure of a target in flight leaves it waiting for a retry, at the time given, if and only if its
   attempts are fewer than the configured number, and three where that is below one; otherwise it has failed. It
   touches no other row, and a target already decided not at all.
   */
  lemma FailureByColumns(db: Db, target: Uuid, account: Uuid, code: string, message: string, next: Time,
                         until: Option<Time>, maxAttempts: int)
    requires target in db.targets
    ensures var t, limit := db.targets[target], if maxAttempts < 1 then 3 else maxAttempts;
            var after := ApplyRetryableFailure(db, target, account, code, message, next, until, maxAttempts);
            var noted := t.(lastError := Some(message), lastErrorCode := Some(code), lastErrorMessage := Some(message));
            after.targets ==
            (if IsDecided(t.status) then db.targets
             else if t.attempts < limit
             then db.targets[target := noted.(status := RetryPending, nextAttemptAt := Some(next))]
             else db.targets[target := noted.(status := Failed, nextAttemptAt := None)]) &&
            after == db.(targets := after.targets, accounts := after.accounts) &&
            IsRetried(FailureOutcomeOf(db, target, maxAttempts)) ==
            (t.status == RetryPending || (!IsDecided(t.status) && t.attempts < limit))
  {
  }

  /**
   Its sender account cools down exactly when the target was in flight, the code is one of the two session
   codes, in any case and padding, the account and an end are known and the account is not disabled.
   */
  lemma CooldownByColumns(db: Db, target: Uuid, account: Uuid, code: string, message: string, next: Time,
                          until: Option<Time>, maxAttempts: int)
    ensures var after := ApplyRetryableFailure(db, target, account, code, message, next, until, maxAttempts);
            var cools := target in db.targets && !IsDecided(db.targets[target].status) &&
              ToUpper(TrimSpace(code)) in {"SESSION_EXPIRED", "BROWSER_ERROR"} && until.Some? &&
              account != NIL && account in db.accounts && db.accounts[account].status != Disabled;
            after.accounts ==
            if cools then db.accounts[account := db.accounts[account].(status := Cooldown, cooldownUntil := until)]
            else db.accounts
  {
  }

  /** A delivery-unknown mark settles every target but one that was sent or is marked already, and counts nothing. */
  lemma UnknownByColumns(db: Db, target: Uuid, code: string, message: string)
    requires target in db.targets
    ensures var t := db.targets[target];
            var marked := t.(status := DeliveryUnknown, lastError := Some(message), lastErrorCode := Some(code),
                             lastErrorMessage := Some(message), nextAttemptAt := None);
            MarkDeliveryUnknown(db, target, code, message) ==
            if t.status in {Sent, Delivered, Viewed, Replied, DeliveryUnknown} then db
            else db.(targets := db.targets[target := marked])
  {
  }

  // ---------------------------------------------------------------- reported statuses

  /** A status reported that gives way to the stored one: an earlier stage of the same sending. */
  predicate GivesWay(stored: TaskStatus, status: TaskStatus) {
    match stored
    case Replied => status in {Pending, RetryPending, Sent, Delivered, Viewed} || status.Other?
    case Viewed => status in {Pending, RetryPending, Sent, Delivered} || status.Other?
    case Sent | Delivered => status in {Pending, RetryPending} || status.Other?
    case Pending | RetryPending => status.Other?
    case _ => false
  }

  /**
   A reported status is written unless it gives way to the stored one; an error is always written. The report
   fails for an unknown target, and for a status the database does not know and would have to write.
   */
  lemma ReportByColumns(db: Db, target: Uuid, status: TaskStatus, err: Option<string>, sentAt: Option<Time>, now: Time)
    requires target in db.targets && db.targets[target].campaign in db.campaigns
    ensures var t := db.targets[target];
            var after := UpdateTargetStatus(db, target, status, err, sentAt, now);
            var written := if GivesWay(t.status, status) then t.status else status;
            var stamp := if sentAt.Some? then sentAt
                         else if status in {Sent, Delivered} then Some(now) else t.sentAt;
            after.targets ==
            (if written.Other? then db.targets
             else db.targets[target := t.(status := written, lastError := err, sentAt := stamp)]) &&
            after == db.(targets := after.targets, campaigns := after.campaigns) &&
            (Reportable(db, target, status) <==> !written.Other?)
  {
  }

  /**
   The counters follow what is reported, not what is written: processed_count grows by one exactly when a target
   not stored as delivered is reported so, error_count exactly when one not stored in an error is reported in one.
   */
  lemma CountersByColumns(db: Db, target: Uuid, status: TaskStatus, err: Option<string>, sentAt: Option<Time>,
                          now: Time)
    requires target in db.targets && db.targets[target].campaign in db.campaigns && !db.targets[target].status.Other?
    ensures var t := db.targets[target];
            var after, k := UpdateTargetStatus(db, target, status, err, sentAt, now), db.campaigns[t.campaign];
            var errors := {Failed, UserNotFoundByPhone, DeliveryUnknown};
            after.campaigns ==
            db.campaigns[t.campaign := k.(
              processedCount := k.processedCount + (if status == Delivered && t.status != Delivered then 1 else 0),
              errorCount := k.errorCount + (if status in errors && t.status !in errors then 1 else 0))]
  {
  }

  // ---------------------------------------------------------------- replies

  predicate IsOwnedAt(db: Db, order: seq<Uuid>, tenant: Uuid, i: int) {
    0 <= i < |order| && order[i] in db.accounts && db.accounts[order[i]].tenant == tenant
  }

  /** The tenant's first account in the given order, or the order has none of its accounts. */
  predicate IsFirstOf(db: Db, order: seq<Uuid>, tenant: Uuid, account: Option<Uuid>) {
    if account.None? then forall i :: 0 <= i < |order| ==> !IsOwnedAt(db, order, tenant, i)
    else exists i :: 0 <= i < |order| && IsOwnedAt(db, order, tenant, i) && order[i] == account.value &&
                     forall j :: 0 <= j < i ==> !IsOwnedAt(db, order, tenant, j)
  }

  lemma {:induction false} FirstAccountIsFirst(db: Db, order: seq<Uuid>, tenant: Uuid)
    ensures IsFirstOf(db, order, tenant, FirstAccountOf(db, order, tenant))
  {
    if order != [] {
      var rest, a := order[1..], FirstAccountOf(db, order[1..], tenant);
      FirstAccountIsFirst(db, rest, tenant);
      forall i | 0 < i < |order| ensures IsOwnedAt(db, order, tenant, i) <==> IsOwnedAt(db, rest, tenant, i - 1) {}
      if a.None? {
        forall i | 0 < i < |order| ensures !IsOwnedAt(db, order, tenant,
                                                      i) { assert !IsOwnedAt(db, rest, tenant, i - 1); }
      } else if !IsOwnedAt(db, order, tenant, 0) {
        var i :| 0 <= i < |rest| && IsOwnedAt(db, rest, tenant, i) && rest[i] == a.value &&
                 forall j :: 0 <= j < i ==> !IsOwnedAt(db, rest, tenant, j);
        assert IsOwnedAt(db, order, tenant, i + 1) && order[i + 1] == a.value;
        forall j | 0 <= j < i + 1 ensures !IsOwnedAt(db, order, tenant, j) {
          if j > 0 { assert !IsOwnedAt(db, rest, tenant, j - 1); }
        }
      } else {
        assert IsOwnedAt(db, order, tenant, 0);
      }
    }
  }

  /** The account of a reply's row: the target's own, or else the first account of the target's tenant. */
  predicate IsReplyAccount(db: Db, id: Uuid, account: Option<Uuid>)
    requires id in db.targets
  {
    if db.targets[id].account.Some? then account == db.targets[id].account
    else IsFirstOf(db, db.accountOrder, db.targets[id].tenant, account)
  }

  lemma ReplyAccountByColumns(db: Db, id: Uuid)
    requires id in db.targets
    ensures IsReplyAccount(db, id, ReplyRowAccount(db, id))
  {
    FirstAccountIsFirst(db, db.accountOrder, db.targets[id].tenant);
  }

  /** Every target of the campaign with another phone has replied. */
  predicate OthersReplied(db: Db, campaign: Uuid, phone: Phone) {
    forall id :: id in db.targets && db.targets[id].campaign == campaign ==>
      db.targets[id].phone == phone || db.targets[id].status == Replied
  }

  /**
   A registered reply adds one reply row on the account of the target found, blocks the tenant's phone exactly when it
   unsubscribes, and completes the campaign exactly when every target of it has replied by then. It fails, and changes
   nothing, where the target found is not one of the campaign with that phone, or no account can be had for the row.
   */
  lemma ReplyByColumns(db: Db, campaign: Uuid, phone: Phone, text: string, at: Time, unsub: bool, chosen: Uuid)
    returns (account: Option<Uuid>)
    requires chosen in db.targets && campaign in db.campaigns
    ensures IsReplyAccount(db, chosen, account)
    ensures var after, k := RegisterReply(db, campaign, phone, text, at, unsub, chosen), db.campaigns[campaign];
            if db.targets[chosen].campaign != campaign || db.targets[chosen].phone != phone || account.None? then
              after == db
            else
              after.replies == db.replies + [ReplyRow(chosen, account.value, text, at)] &&
              after.blocked == db.blocked + (if unsub then {(k.tenant, phone)} else {}) &&
              after.campaigns ==
              (if OthersReplied(db, campaign, phone) then db.campaigns[campaign := k.(status := Completed)]
               else db.campaigns) &&
              after == db.(targets := after.targets, campaigns := after.campaigns, replies := after.replies,
                           blocked := after.blocked)
  {
    account := ReplyRowAccount(db, chosen);
    ReplyAccountByColumns(db, chosen);
    if db.targets[chosen].campaign == campaign && db.targets[chosen].phone == phone && account.Some? {
      CompletesByColumns(db, campaign, phone, text, at, chosen);
    }
  }

  /** It is written to every target of the campaign with that phone and to no other. */
  lemma RepliedByColumns(db: Db, campaign: Uuid, phone: Phone, text: string, at: Time, unsub: bool, chosen: Uuid)
    requires Registrable(db, campaign, phone, chosen)
    ensures var after := RegisterReply(db, campaign, phone, text, at, unsub, chosen);
            after.targets.Keys == db.targets.Keys &&
            forall id :: id in db.targets ==>
              var t := db.targets[id];
              after.targets[id] ==
              if t.campaign == campaign && t.phone == phone
              then t.(status := Replied, lastReplyText := Some(text), repliedAt := Some(at)) else t
  {
  }

  lemma CompletesByColumns(db: Db, campaign: Uuid, phone: Phone, text: string, at: Time, chosen: Uuid)
    requires Registrable(db, campaign, phone, chosen)
    ensures Completes(db, campaign, phone, text, at, chosen) <==> OthersReplied(db, campaign, phone)
  {
    var after := MarkReplied(db.targets, campaign, phone, text, at);
    if AllReplied(after, campaign) {
      forall id | id in db.targets && db.targets[id].campaign == campaign && db.targets[id].phone != phone
        ensures db.targets[id].status == Replied
      {
        assert id in after && after[id] == db.targets[id];
      }
    }
  }

  // ---------------------------------------------------------------- campaigns

  /**
   An undisturbed check starts a campaign exactly when it is a draft, not deleted, and is to start at once or
   its start time has come; it changes nothing else.
   */
  lemma StartedByColumns(db: Db, now: Time)
    ensures Started(db, now, {}) == db.(campaigns := Started(db, now, {}).campaigns) &&
            Started(db, now, {}).campaigns.Keys == db.campaigns.Keys
    ensures forall id :: id in db.campaigns ==>
              var k := db.campaigns[id];
              Started(db, now, {}).campaigns[id] ==
              if k.status == Draft && !k.deleted &&
                 (k.startImmediately || (k.timeToStart.Some? && k.timeToStart.value <= now))
              then k.(status := Processing) else k
  {
  }
}
