/**
 internal/repository: the tables as mutable state and the repository calls as they run, statement
 by statement. Each call is proved equal to its transition in Tables, on the snapshot of the tables.
 `up` says whether the database serves the call; a call that returns an error leaves the tables as they were.
 */
module Repository {
  import opened Domain
  import opened Settings
  import opened Tables

  datatype Result<T> = Ok(value: T) | Err


  class PostgresRepository {
    var targets: map<Uuid, Target>
    var targetOrder: seq<Uuid>
    var campaigns: map<Uuid, Campaign>
    var accounts: map<Uuid, Account>
    var accountOrder: seq<Uuid>
    var usage: map<(Uuid, int), nat>
    var quotas: map<(Uuid, int), Quota>
    var outbox: seq<OutboxRow>
    var blocked: set<(Uuid, Phone)>
    var mappings: map<ChatKey, ChatMapping>
    var replies: seq<ReplyRow>

    function Snapshot(): Db
      reads this
    {
      Db(targets, targetOrder, campaigns, accounts, accountOrder, usage, quotas, outbox, blocked, mappings, replies)
    }

    /** What other connections commit between two calls made through this one. */
    method Become(db: Db)
      modifies this
      ensures Snapshot() == db
    {
      targets, targetOrder, campaigns := db.targets, db.targetOrder, db.campaigns;
      accounts, accountOrder, usage := db.accounts, db.accountOrder, db.usage;
      quotas, outbox, blocked := db.quotas, db.outbox, db.blocked;
      mappings, replies := db.mappings, db.replies;
    }

    // -------------------------------------------------------------- reads

    /** The query's filter, the status correction and IsAssignable together accept exactly the assignable accounts. */
    method AcceptsAccount(id: Uuid, tenant: Uuid, date: int, now: Time) returns (accepted: bool)
      ensures accepted == Listable(Snapshot(), tenant, date, now, id)
      ensures accepted <==>
                id in accounts && accounts[id].tenant == tenant && accounts[id].status != Disabled &&
                !(accounts[id].status == Cooldown && accounts[id].cooldownUntil.Some? &&
                  now < accounts[id].cooldownUntil.value) &&
                (if (id, date) in usage then usage[(id, date)] else 0) < accounts[id].dailyLimit
    {
      if id !in accounts || accounts[id].tenant != tenant {
        return false;
      }
      var a := accounts[id];
      if a.status == Disabled || !(a.status == Active || a.cooldownUntil.None? || a.cooldownUntil.value <= now) {
        return false;
      }
      var used := if (id, date) in usage then usage[(id, date)] else 0;
      if a.status == Cooldown && (a.cooldownUntil.None? || !(a.cooldownUntil.value > now)) {
        a := a.(status := Active);
      }
      return IsAssignable(a, used, now);
    }

    method ListAssignableTenantAccounts(up: bool, tenant: Uuid, date: int, now: Time) returns (r: Result<seq<Uuid>>)
      ensures r == if up then Ok(Listing(Snapshot(), accountOrder, tenant, date, now)) else Err
      ensures r.Ok? ==>
                forall id :: id in r.value <==>
                  id in accountOrder && id in accounts && accounts[id].tenant == tenant &&
                  accounts[id].status != Disabled &&
                  !(accounts[id].status == Cooldown && accounts[id].cooldownUntil.Some? &&
                    now < accounts[id].cooldownUntil.value) &&
                  (if (id, date) in usage then usage[(id, date)] else 0) < accounts[id].dailyLimit
    {
      if !up { return Err; }
      var ids: seq<Uuid> := [];
      for i := 0 to |accountOrder|
        invariant ids + Listing(Snapshot(), accountOrder[i..], tenant, date, now) ==
                  Listing(Snapshot(), accountOrder, tenant, date, now)
      {
        assert accountOrder[i..][1..] == accountOrder[i + 1..];
        var accepted := AcceptsAccount(accountOrder[i], tenant, date, now);
        if accepted {
          ids := ids + [accountOrder[i]];
        }
      }
      assert ids + [] == ids;
      assert accountOrder[|accountOrder|..] == [];
      return Ok(ids);
    }

    /** The first selectable target in creation order among those no other transaction holds locked. */
    method GetNextPendingTarget(up: bool, now: Time, tenant: Uuid, warm: bool, locked: set<Uuid>)
      returns (r: Result<Option<PendingTarget>>)
      ensures r == if up then Ok(NextPending(Snapshot(), targetOrder, now, tenant, warm, locked)) else Err
      ensures r.Ok? && r.value.Some? ==>
                var v := r.value.value;
                v.targetId in targets && v.targetId !in locked && targets[v.targetId].campaign in campaigns &&
                var t, k := targets[v.targetId], campaigns[targets[v.targetId].campaign];
                var key := ChatKey(k.tenant, t.phone, t.messengerType);
                v.campaignId == t.campaign && v.tenantId == k.tenant == tenant && v.phone == t.phone &&
                v.isWarm == warm == (key in mappings) &&
                v.preferred == (if key in mappings then Some(mappings[key].account) else None) &&
                v.chatId == (if key in mappings then mappings[key].chatId else "")
    {
      if !up { return Err; }
      for i := 0 to |targetOrder|
        invariant NextPending(Snapshot(), targetOrder, now, tenant, warm, locked) ==
                  NextPending(Snapshot(), targetOrder[i..], now, tenant, warm, locked)
      {
        assert targetOrder[i..][1..] == targetOrder[i + 1..];
        if targetOrder[i] !in locked && Selectable(Snapshot(), now, tenant, warm, targetOrder[i]) {
          return Ok(Some(PendingView(Snapshot(), warm, targetOrder[i])));
        }
      }
      return Ok(None);
    }

    // -------------------------------------------------------------- dosing

    /** The upsert of one daily slot, which inserts unconditionally and increments below the limit. */
    method ReserveDailySlot(account: Uuid, date: int) returns (reserved: bool)
      modifies this`usage
      ensures reserved == HasDailySlot(old(Snapshot()), account, date)
      ensures usage == if reserved then old(usage)[(account, date) := Used(old(Snapshot()), account, date) + 1]
              else old(usage)
    {
      if account !in accounts {
        return false;
      }
      if (account, date) !in usage {
        usage := usage[(account, date) := 1];
        return true;
      }
      if usage[(account, date)] < accounts[account].dailyLimit {
        usage := usage[(account, date) := usage[(account, date)] + 1];
        return true;
      }
      return false;
    }

    /** Locks and re-checks the target, takes the account's daily slot, assigns and enqueues, all or nothing. */
    method AssignAccountAndEnqueueTarget(up: bool, now: Time, target: Uuid, tenant: Uuid, account: Uuid,
                                         eventType: string, payload: SendTask, publishAt: Time)
      returns (r: Result<bool>)
      modifies this`usage, this`targets, this`outbox
      ensures Snapshot() == if up
              then Claim(old(Snapshot()), now, target, tenant, account, eventType, payload, publishAt)
                            else old(Snapshot())
      ensures var o := ClaimOutcomeOf(old(Snapshot()), now, target, account, publishAt);
              r == if !up || o == Refused then Err else Ok(o == Dosed)
    {
      if !up { return Err; }
      if target !in targets || !Claimable(targets[target], now) {
        return Ok(false);
      }
      var reserved := ReserveDailySlot(account, UtcDate(publishAt));
      if !reserved {
        return Err;
      }
      var row := targets[target];
      targets := targets[target := row.(account := Some(account), tenant := tenant, status := Pending,
                                        attempts := row.attempts + 1, nextAttemptAt := None)];
      outbox := outbox + [OutboxRow(eventType, payload, tenant, account, publishAt, false)];
      return Ok(true);
    }

    /** The row inserted unless it exists; `limit` is the one drawn for it. */
    method CreateTenantDailyQuota(up: bool, c: Config, tenant: Uuid, date: int, draw: nat)
      returns (ok: bool, limit: int)
      modifies this`quotas
      ensures ok == up && limit == RandomColdLimit(c, draw)
      ensures Snapshot() == if up then EnsureQuota(old(Snapshot()), tenant, date, limit) else old(Snapshot())
    {
      limit := RandomColdLimit(c, draw);
      if !up { return false, limit; }
      if (tenant, date) !in quotas {
        quotas := quotas[(tenant, date) := Quota(limit, 0, 0, None)];
      }
      return true, limit;
    }

    method LoadTenantDailyQuota(up: bool, tenant: Uuid, date: int) returns (r: Result<Quota>)
      ensures r == if up && (tenant, date) in quotas then Ok(quotas[(tenant, date)]) else Err
    {
      if !up { return Err; }
      if (tenant, date) !in quotas {
        return Err;
      }
      return Ok(quotas[(tenant, date)]);
    }

    method TryReserveColdSlot(up: bool, tenant: Uuid, date: int, at: Time, interval: Time) returns (r: Result<bool>)
      modifies this`quotas
      ensures Snapshot() == if up then Tables.TryReserveColdSlot(old(Snapshot()), tenant, date, at, interval)
              else old(Snapshot())
      ensures r == if up then Ok(SlotAvailable(old(Snapshot()), tenant, date, at, interval)) else Err
    {
      if !up { return Err; }
      // Whole seconds; a negative interval counts as none, however the division rounds.
      var secs := interval / SECOND;
      if secs < 0 {
        secs := 0;
      }
      if (tenant, date) !in quotas {
        return Ok(false);
      }
      var q := quotas[(tenant, date)];
      if q.coldUsed >= q.coldLimit || (q.lastColdPublishAt.Some? && q.lastColdPublishAt.value + secs * SECOND > at) {
        return Ok(false);
      }
      quotas := quotas[(tenant, date) := q.(coldUsed := q.coldUsed + 1, lastColdPublishAt := Some(at))];
      return Ok(true);
    }

    method IncrementWarmUsed(up: bool, tenant: Uuid, date: int) returns (ok: bool)
      modifies this`quotas
      ensures ok == up
      ensures Snapshot() == if up then Tables.IncrementWarmUsed(old(Snapshot()), tenant, date) else old(Snapshot())
    {
      if !up { return false; }
      if (tenant, date) in quotas {
        var q := quotas[(tenant, date)];
        quotas := quotas[(tenant, date) := q.(warmUsed := q.warmUsed + 1)];
      }
      return true;
    }

    method DeferRetryTargetsWithoutAccounts(up: bool, now: Time, tenant: Uuid, next: Time) returns (ok: bool)
      modifies this`targets
      ensures ok == up
      ensures Snapshot() == if up then DeferRetries(old(Snapshot()), tenant, next, now) else old(Snapshot())
    {
      if !up { return false; }
      var before := Snapshot();
      targets := map id | id in targets ::
        if IsDeferrable(before, tenant, now, id) then targets[id].(nextAttemptAt := Some(next)) else targets[id];
      return true;
    }

    // -------------------------------------------------------------- results

    /** The cooldown statement, whose guard spares disabled accounts. */
    method CoolAccountDown(account: Uuid, until: Option<Time>)
      modifies this`accounts
      ensures accounts == if account in old(accounts) && !old(accounts)[account].status.Disabled?
                          then old(accounts)[account := old(accounts)[account].(status := Cooldown,
                                                                                cooldownUntil := until)]
                          else old(accounts)
    {
      if account in accounts && accounts[account].status != Disabled {
        accounts := accounts[account := accounts[account].(status := Cooldown, cooldownUntil := until)];
      }
    }

    /** Fails the target when its attempts are used up, reschedules it otherwise. */
    method FailOrReschedule(target: Uuid, code: string, message: string, next: Time, max: int) returns (retried: bool)
      requires target in targets
      modifies this`targets
      ensures retried == (old(targets)[target].attempts < max)
      ensures var row := WithError(old(targets)[target], code, message);
              targets == old(targets)[target := if retried
                                      then row.(status := RetryPending, nextAttemptAt := Some(next))
                                                else row.(status := Failed, nextAttemptAt := None)]
    {
      var row := targets[target];
      row := row.(lastError := Some(message), lastErrorCode := Some(code), lastErrorMessage := Some(message));
      if row.attempts >= max {
        targets := targets[target := row.(status := Failed, nextAttemptAt := None)];
        return false;
      }
      targets := targets[target := row.(status := RetryPending, nextAttemptAt := Some(next))];
      return true;
    }

    /** Returns whether the target now waits for a retry. */
    method ApplyRetryableFailure(up: bool, target: Uuid, account: Uuid, code: string, message: string, next: Time,
                                 cooldownUntil: Option<Time>, maxAttempts: int) returns (r: Result<bool>)
      modifies this`targets, this`accounts
      ensures targets == if up then FailTargets(old(Snapshot()), target, code, message, next, maxAttempts)
              else old(targets)
      ensures accounts == if up then FailAccounts(old(Snapshot()), target, account, code, cooldownUntil, maxAttempts)
                          else old(accounts)
      ensures var o := FailureOutcomeOf(old(Snapshot()), target, maxAttempts);
              r == if !up || o == Missing then Err else Ok(IsRetried(o))
      ensures var limit := if maxAttempts < 1 then 3 else maxAttempts;
              up && target in old(targets) && old(targets)[target].status == Pending ==>
                var tried := old(targets)[target].attempts;
                target in targets && r == Ok(tried < limit) &&
                targets[target].status == (if tried < limit then RetryPending else Failed) &&
                targets[target].nextAttemptAt == (if tried < limit then Some(next) else None)
    {
      if !up { return Err; }
      var max := if maxAttempts < 1 then 3 else maxAttempts;
      if target !in targets {
        return Err;
      }
      match targets[target].status {
        case RetryPending => return Ok(true);
        case DeliveryUnknown | Failed | UserNotFoundByPhone | Sent | Delivered | Viewed | Replied => return Ok(false);
        case Pending | Other(_) =>
      }
      if account != NIL && IsSessionHealthError(code) && cooldownUntil.Some? {
        CoolAccountDown(account, cooldownUntil);
      }
      var retried := FailOrReschedule(target, code, message, next, max);
      return Ok(retried);
    }

    method MarkTargetDeliveryUnknown(up: bool, target: Uuid, code: string, message: string) returns (ok: bool)
      modifies this`targets
      ensures ok == up
      ensures Snapshot() == if up then MarkDeliveryUnknown(old(Snapshot()), target, code, message) else old(Snapshot())
    {
      if !up { return false; }
      if target in targets && targets[target].status !in {Sent, Delivered, Viewed, Replied, DeliveryUnknown} {
        targets := targets[target := targets[target].(status := DeliveryUnknown, lastError := Some(message),
                                                      lastErrorCode := Some(code), lastErrorMessage := Some(message),
                                                      nextAttemptAt := None)];
      }
      return true;
    }

    /** Writes the status unless a later one is stored, and counts the status that was reported. */
    method UpdateTargetStatus(up: bool, now: Time, target: Uuid, status: TaskStatus, lastError: Option<string>,
                              sentAt: Option<Time>) returns (ok: bool)
      modifies this`targets, this`campaigns
      ensures Snapshot() == if up
              then Tables.UpdateTargetStatus(old(Snapshot()), target, status, lastError, sentAt, now)
                            else old(Snapshot())
      ensures ok == (up && Reportable(old(Snapshot()), target, status))
    {
      if !up { return false; }
      if target !in targets {
        return false;
      }
      var row := targets[target];
      var statusToWrite := StatusToWrite(row.status, status);
      if statusToWrite.Other? || row.campaign !in campaigns {
        return false;
      }
      var finalSentAt := SentTime(status, sentAt, now);
      var t := row.(status := statusToWrite, lastError := lastError, sentAt := if finalSentAt.Some? then finalSentAt
                    else row.sentAt);
      var k := CountReport(campaigns[row.campaign], row.status, status);
      targets := targets[target := t];
      campaigns := campaigns[row.campaign := k];
      return true;
    }

    /** `chosen` is the row whose id the update happens to return first; the result is the campaign's tenant. */
    method RegisterReply(up: bool, campaign: Uuid, phone: Phone, text: string, repliedAt: Time, unsubscribes: bool,
                         chosen: Uuid)
      returns (r: Result<Uuid>)
      modifies this`targets, this`campaigns, this`replies, this`blocked
      ensures Snapshot() == if up
              then Tables.RegisterReply(old(Snapshot()), campaign, phone, text, repliedAt, unsubscribes, chosen)
                            else old(Snapshot())
      ensures r == if up &&
              Registrable(old(Snapshot()), campaign, phone, chosen) then Ok(old(campaigns)[campaign].tenant) else Err
    {
      if !up { return Err; }
      if !Registrable(Snapshot(), campaign, phone, chosen) {
        return Err;
      }
      var tenant := campaigns[campaign].tenant;
      var account := ReplyRowAccount(Snapshot(), chosen);
      targets := MarkReplied(targets, campaign, phone, text, repliedAt);
      replies := replies + [ReplyRow(chosen, account.value, text, repliedAt)];
      if unsubscribes {
        blocked := blocked + {(tenant, phone)};
      }
      // COUNT(*) and SUM(status = 'replied') over the campaign's targets.
      var total, replied := |TargetsOf(targets, campaign)|, |RepliedOf(targets, campaign)|;
      AllRepliedByCount(targets, campaign);
      if replied >= total {
        campaigns := campaigns[campaign := campaigns[campaign].(status := Completed)];
      }
      return Ok(tenant);
    }

    method GetCampaignTargetByID(up: bool, id: Uuid) returns (r: Result<Target>)
      ensures r == if up && id in targets then Ok(targets[id]) else Err
    {
      if !up || id !in targets { return Err; }
      return Ok(targets[id]);
    }

    // -------------------------------------------------------------- lifecycle

    method GetActiveCampaignsReadyToStart(up: bool, now: Time) returns (r: Result<map<Uuid, Campaign>>)
      ensures r == if up then Ok(map id | id in campaigns && ReadyToStart(campaigns[id], now) :: campaigns[id]) else Err
    {
      if !up { return Err; }
      return Ok(map id | id in campaigns && ReadyToStart(campaigns[id], now) :: campaigns[id]);
    }

    method StartCampaign(up: bool, campaign: Uuid) returns (ok: bool)
      modifies this`campaigns
      ensures ok == up
      ensures Snapshot() == if up then Tables.StartCampaign(old(Snapshot()), campaign) else old(Snapshot())
    {
      if !up { return false; }
      if campaign in campaigns && campaigns[campaign].status == Draft {
        campaigns := campaigns[campaign := campaigns[campaign].(status := Processing)];
      }
      return true;
    }

    method StopCampaign(up: bool, campaign: Uuid) returns (ok: bool)
      modifies this`campaigns
      ensures ok == up
      ensures Snapshot() == if up then Tables.StopCampaign(old(Snapshot()), campaign) else old(Snapshot())
    {
      if !up { return false; }
      if campaign in campaigns {
        campaigns := campaigns[campaign := campaigns[campaign].(status := Stopped)];
      }
      return true;
    }
  }

  /** The limit drawn for a new quota row, with the random draw as a parameter. */
  function RandomColdLimit(c: Config, draw: nat): (limit: int)
    ensures c.IsColdLimit(limit)
  {
    var max := if c.limitColdMax < c.limitColdMin then c.limitColdMin else c.limitColdMax;
    if max > c.limitColdMin then c.limitColdMin + draw % (max - c.limitColdMin + 1) else c.limitColdMin
  }

  /** Every limit between the two configured numbers may be drawn, and the first also where the second is less. */
  lemma ColdLimitsDrawn(c: Config, limit: int) returns (draw: nat)
    requires c.limitColdMin <= limit && (limit == c.limitColdMin || limit <= c.limitColdMax)
    ensures RandomColdLimit(c, draw) == limit
  {
    draw := limit - c.limitColdMin;
    if c.limitColdMax > c.limitColdMin {
      SmallMod(draw, c.limitColdMax - c.limitColdMin + 1);
    }
  }

  predicate Free(db: Db, now: Time, tenant: Uuid, warm: bool, locked: set<Uuid>, id: Uuid) {
    id !in locked && Selectable(db, now, tenant, warm, id)
  }

  /** Everything selection asks of a target apart from the chat mapping. */
  predicate Eligible(db: Db, now: Time, tenant: Uuid, id: Uuid)
    requires id in db.targets && db.targets[id].campaign in db.campaigns
  {
    var c := db.campaigns[db.targets[id].campaign];
    c.tenant == tenant && c.status == Processing && !c.deleted &&
    Claimable(db.targets[id], now) && (tenant, db.targets[id].phone) !in db.blocked
  }

  /**
   The warm and the cold selection never compete for a target, and together they reach every
   eligible one except exactly those whose mapping has an empty chat id.
   */
  lemma WarmAndColdSplit(db: Db, now: Time, tenant: Uuid, id: Uuid)
    requires id in db.targets && db.targets[id].campaign in db.campaigns
    ensures var warm, cold := Selectable(db, now, tenant, true, id), Selectable(db, now, tenant, false, id);
            var key := KeyOf(db, db.targets[id]);
            !(warm && cold) &&
            (warm || cold <==> Eligible(db, now, tenant, id) && !(key in db.mappings && db.mappings[key].chatId == ""))
  {
  }

  function NextPending(db: Db, order: seq<Uuid>, now: Time, tenant: Uuid, warm: bool,
                       locked: set<Uuid>): Option<PendingTarget> {
    if order == [] then None
    else if Free(db, now, tenant, warm, locked, order[0]) then Some(PendingView(db, warm, order[0]))
    else NextPending(db, order[1..], now, tenant, warm, locked)
  }

  /** A target is chosen exactly when a free one is listed, and it is the first of them. */
  lemma {:induction false} NextPendingIsFirst(db: Db, order: seq<Uuid>, now: Time, tenant: Uuid, warm: bool,
                                              locked: set<Uuid>)
    ensures var v := NextPending(db, order, now, tenant, warm, locked);
            (v.Some? <==> exists i :: 0 <= i < |order| && Free(db, now, tenant, warm, locked, order[i])) &&
            (v.Some? ==> exists i :: 0 <= i < |order| && Free(db, now, tenant, warm, locked, order[i]) &&
                                     v.value == PendingView(db, warm, order[i]) &&
                                     forall j :: 0 <= j < i ==> !Free(db, now, tenant, warm, locked, order[j]))
  {
    if order != [] {
      NextPendingIsFirst(db, order[1..], now, tenant, warm, locked);
      if !Free(db, now, tenant, warm, locked, order[0]) {
        var v := NextPending(db, order[1..], now, tenant, warm, locked);
        if v.Some? {
          var i :| 0 <= i < |order[1..]| && Free(db, now, tenant, warm, locked, order[1..][i]) &&
                   v.value == PendingView(db, warm, order[1..][i]) &&
                   forall j :: 0 <= j < i ==> !Free(db, now, tenant, warm, locked, order[1..][j]);
          assert Free(db, now, tenant, warm, locked, order[i + 1]);
          forall j | 0 <= j < i + 1 ensures !Free(db, now, tenant, warm, locked, order[j]) {
            if j > 0 { assert order[j] == order[1..][j - 1]; }
          }
        } else {
          forall i | 0 <= i < |order| ensures !Free(db, now, tenant, warm, locked, order[i]) {
            if i > 0 { assert order[i] == order[1..][i - 1]; }
          }
        }
      }
    }
  }

  /** What is chosen can be dosed: its view is that of a selectable target. */
  lemma {:induction false} NextPendingIsSelectable(db: Db, order: seq<Uuid>, now: Time, tenant: Uuid, warm: bool,
                                                   locked: set<Uuid>)
    ensures var v := NextPending(db, order, now, tenant, warm, locked);
            v.Some? ==>
              Free(db, now, tenant, warm, locked, v.value.targetId) &&
              v.value == PendingView(db, warm, v.value.targetId)
  {
    if order != [] { NextPendingIsSelectable(db, order[1..], now, tenant, warm, locked); }
  }

  lemma SubsetSize(a: set<Uuid>, b: set<Uuid>)
    requires a <= b
    ensures |a| >= |b| <==> a == b
  {
    assert b == a + (b - a);
  }

  function TargetsOf(targets: map<Uuid, Target>, campaign: Uuid): set<Uuid> {
    set id | id in targets && targets[id].campaign == campaign
  }

  function RepliedOf(targets: map<Uuid, Target>, campaign: Uuid): set<Uuid> {
    set id | id in targets && targets[id].campaign == campaign && targets[id].status == Replied
  }

  /** Counting replied targets up to the total is the same as finding every target replied. */
  lemma AllRepliedByCount(targets: map<Uuid, Target>, campaign: Uuid)
    ensures |RepliedOf(targets, campaign)| >= |TargetsOf(targets, campaign)| <==> AllReplied(targets, campaign)
  {
    var total, replied := TargetsOf(targets, campaign), RepliedOf(targets, campaign);
    SubsetSize(replied, total);
    if AllReplied(targets, campaign) {
      assert forall id :: id in total ==> id in replied;
      assert replied == total;
    }
    if replied == total {
      forall id | id in targets && targets[id].campaign == campaign ensures targets[id].status == Replied {
        assert id in total;
      }
    }
  }
}
