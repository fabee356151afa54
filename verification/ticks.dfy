/** What an undisturbed tick achieves, and what every tick leaves true of the tables. */
module Ticks {
  import opened Domain
  import opened Settings
  import opened Tables
  import opened Protocol
  import opened Repository
  import opened RoundRobin
  import opened Dosing
  import opened Environments
  import opened Runs
  import Lifecycle
  import Conservation
  import ColdPacing

  predicate SomeFree(db: Db, now: Time, tenant: Uuid, warm: bool, locked: set<Uuid>) {
    exists i :: 0 <= i < |db.targetOrder| && Free(db, now, tenant, warm, locked, db.targetOrder[i])
  }

  /** The quota row a tick sees: the stored one, or a new one with the drawn limit. */
  function QuotaSeen(c: Config, db: Db, tenant: Uuid, now: Time, chance: Chance): Quota {
    if (tenant, c.LocalDate(now)) in db.quotas then db.quotas[(tenant, c.LocalDate(now))]
    else Quota(RandomColdLimit(c, chance.limitDraw), 0, 0, None)
  }

  predicate WarmDue(c: Config, db: Db, tenant: Uuid, now: Time, chance: Chance) {
    QuotaSeen(c, db, tenant, now, chance).warmUsed < c.limitWarmDaily && SomeFree(db, now, tenant, true, chance.locked)
  }

  /** Inside the window, below the limit and far enough from the last slot, also when the drawn interval is negative. */
  predicate ColdDue(c: Config, db: Db, tenant: Uuid, now: Time, chance: Chance) {
    var q, interval := QuotaSeen(c, db, tenant, now, chance), RandomColdInterval(c, chance.intervalDraw);
    c.IsWithinWorkWindow(now) && q.coldUsed < q.coldLimit &&
    (q.lastColdPublishAt.Some? ==> q.lastColdPublishAt.value + (if interval < 0 then 0 else interval) <= now) &&
    SomeFree(db, now, tenant, false, chance.locked)
  }

  function Accounts(c: Config, db: Db, tenant: Uuid, now: Time): seq<Uuid> {
    Listing(db, db.accountOrder, tenant, c.LocalDate(now), now)
  }

  predicate HasSlots(db: Db, accounts: seq<Uuid>, now: Time) {
    forall a :: a in accounts ==> HasDailySlot(db, a, UtcDate(now))
  }

  /** The one row a dose appends. */
  predicate Appends(after: Db, before: Db, contactType: string, at: Time) {
    |after.outbox| == |before.outbox| + 1 && after.outbox[..|before.outbox|] == before.outbox &&
    after.outbox[|before.outbox|].task.contactType == contactType && after.outbox[|before.outbox|].publishAt == at
  }

  lemma SlotFollowsChecks(c: Config, q: Quota, at: Time, chance: Chance)
    requires ColdAllowed(c, at, q, RandomColdInterval(c, chance.intervalDraw))
    ensures SlotFree(q, at, RandomColdInterval(c, chance.intervalDraw)) <==>
            (q.lastColdPublishAt.Some? ==>
               var interval := RandomColdInterval(c, chance.intervalDraw);
               q.lastColdPublishAt.value + (if interval < 0 then 0 else interval) <= at)
  {
    var interval := RandomColdInterval(c, chance.intervalDraw);
    assert exists minutes :: interval == minutes * MINUTE;
    var minutes :| interval == minutes * MINUTE;
    assert interval / SECOND == minutes * 60;
  }

  /** The account that the next warm or cold target is handed to. */
  function PickedFor(c: Config, db: Db, cursors: map<Uuid, nat>, tick: Tick, warm: bool,
                     locked: set<Uuid>): Option<Uuid> {
    var next := NextPending(db, db.targetOrder, tick.at, tick.tenant, warm, locked);
    if next.None? then None else Picked(cursors, Request(tick.tenant, tick.accounts, next.value.preferred))
  }

  /** A refused cold claim: no row, the target and the usage untouched, but the reserved slot is spent. */
  predicate SpendsSlot(after: Db, before: Db, key: (Uuid, int)) {
    key in before.quotas && key in after.quotas && after.quotas[key].coldUsed == before.quotas[key].coldUsed + 1 &&
    after == before.(quotas := after.quotas) && after.quotas - {key} == before.quotas - {key}
  }

  /** A tick's dose is appended if the picked account has a slot on the UTC date, and is refused otherwise. */
  predicate DosesOr(after: Db, before: Db, contactType: string, account: Option<Uuid>, at: Time, key: (Uuid, int)) {
    account.Some? &&
    if HasDailySlot(before, account.value, UtcDate(at)) then Appends(after, before, contactType, at)
    else if contactType == "warm" then after == before
    else SpendsSlot(after, before, key)
  }

  lemma ScheduledWarmDoses(c: Config, db: Db, tick: Tick, view: PendingTarget, account: Uuid)
    requires view.targetId in db.targets && Claimable(db.targets[view.targetId], tick.at)
    ensures DosesOr(Scheduled(c, db, tick, view, account, false, 0), db, "warm", Some(account), tick.at,
                    (tick.tenant, c.LocalDate(tick.at)))
  {
  }

  lemma ScheduledColdDoses(c: Config, db: Db, tick: Tick, view: PendingTarget, account: Uuid, interval: Time)
    requires view.targetId in db.targets && Claimable(db.targets[view.targetId], tick.at)
    ensures var slot := SlotAvailable(db, tick.tenant, c.LocalDate(tick.at), tick.at, interval);
            var after := Scheduled(c, db, tick, view, account, true, interval);
            if slot then DosesOr(after, db, "cold", Some(account), tick.at, (tick.tenant, c.LocalDate(tick.at)))
              else after == db
  {
    assert "warm"[0] != "cold"[0];
  }

  lemma SomeFreeIsNext(db: Db, now: Time, tenant: Uuid, warm: bool, locked: set<Uuid>)
    ensures SomeFree(db, now, tenant, warm, locked) <==>
            NextPending(db, db.targetOrder, now, tenant, warm, locked).Some?
    ensures var v := NextPending(db, db.targetOrder, now, tenant, warm, locked);
            v.Some? ==> v.value.targetId in db.targets && Claimable(db.targets[v.value.targetId], now)
  {
    NextPendingIsFirst(db, db.targetOrder, now, tenant, warm, locked);
    NextPendingIsSelectable(db, db.targetOrder, now, tenant, warm, locked);
  }

  lemma QuietColdDoses(c: Config, db: Db, cursors: map<Uuid, nat>, tick: Tick, chance: Chance)
    requires tick.accounts != [] && (tick.tenant, c.LocalDate(tick.at)) in db.quotas
    ensures var key := (tick.tenant, c.LocalDate(tick.at));
            var after := QuietCold(c, db, cursors, tick, db.quotas[key], chance).db;
            if ColdDue(c, db, tick.tenant, tick.at, chance)
            then DosesOr(after, db, "cold", PickedFor(c, db, cursors, tick, false, chance.locked), tick.at, key)
            else after == db
  {
    var interval := RandomColdInterval(c, chance.intervalDraw);
    var q := db.quotas[(tick.tenant, c.LocalDate(tick.at))];
    var next := NextPending(db, db.targetOrder, tick.at, tick.tenant, false, chance.locked);
    SomeFreeIsNext(db, tick.at, tick.tenant, false, chance.locked);
    if ColdAllowed(c, tick.at, q, interval) && next.Some? {
      SlotFollowsChecks(c, q, tick.at, chance);
      var account := Picked(cursors, Request(tick.tenant, tick.accounts, next.value.preferred));
      ScheduledColdDoses(c, db, tick, next.value, account.value, interval);
    }
  }

  lemma QuietQuotedDoses(c: Config, db: Db, cursors: map<Uuid, nat>, tick: Tick, chance: Chance)
    requires tick.accounts != [] && (tick.tenant, c.LocalDate(tick.at)) in db.quotas
    ensures var key := (tick.tenant, c.LocalDate(tick.at));
            var after := QuietQuoted(c, db, cursors, tick, db.quotas[key], chance).db;
            if WarmDue(c, db, tick.tenant, tick.at, chance)
            then DosesOr(after, db, "warm", PickedFor(c, db, cursors, tick, true, chance.locked), tick.at, key)
            else if ColdDue(c, db, tick.tenant, tick.at, chance)
            then DosesOr(after, db, "cold", PickedFor(c, db, cursors, tick, false, chance.locked), tick.at, key)
            else after == db
  {
    var q := db.quotas[(tick.tenant, c.LocalDate(tick.at))];
    var next := NextPending(db, db.targetOrder, tick.at, tick.tenant, true, chance.locked);
    SomeFreeIsNext(db, tick.at, tick.tenant, true, chance.locked);
    if q.warmUsed < c.limitWarmDaily && next.Some? {
      var account := Picked(cursors, Request(tick.tenant, tick.accounts, next.value.preferred));
      ScheduledWarmDoses(c, db, tick, next.value, account.value);
    } else {
      QuietColdDoses(c, db, cursors, tick, chance);
    }
  }

  lemma EnsuredSeesTheSame(c: Config, db: Db, tenant: Uuid, now: Time, chance: Chance)
    ensures var after := EnsureQuota(db, tenant, c.LocalDate(now), RandomColdLimit(c, chance.limitDraw));
            (tenant, c.LocalDate(now)) in after.quotas &&
            QuotaSeen(c, after, tenant, now, chance) == QuotaSeen(c, db, tenant, now, chance) &&
            (WarmDue(c, after, tenant, now, chance) <==> WarmDue(c, db, tenant, now, chance)) &&
            (ColdDue(c, after, tenant, now, chance) <==> ColdDue(c, db, tenant, now, chance))
  {
    var after := EnsureQuota(db, tenant, c.LocalDate(now), RandomColdLimit(c, chance.limitDraw));
    forall warm, id ensures Free(after, now, tenant, warm, chance.locked, id) <==>
    Free(db, now, tenant, warm, chance.locked, id) {
    }
  }

  /** The tables as a tick with accounts finds them to work on: with the day's quota row. */
  function Provided(c: Config, db: Db, tenant: Uuid, now: Time, chance: Chance): Db {
    EnsureQuota(db, tenant, c.LocalDate(now), RandomColdLimit(c, chance.limitDraw))
  }

  /**
   What an undisturbed tick does, in every state. Without accounts it adds no row. If a warm target is
   due it appends one warm row, else if a cold one is due one cold row, provided the account it picks
   has a slot on the UTC date; a refused warm claim changes nothing and a refused cold one costs its
   slot. If nothing is due the tables stay as provided.
   */
  lemma UndisturbedTickDosesExactly(c: Config, db: Db, cursors: map<Uuid, nat>, tenant: Uuid, now: Time, mark: nat,
                                    chance: Chance)
    ensures var after, provided := QuietTick(c, db, cursors, tenant, now, mark, chance).db,
            Provided(c, db, tenant, now, chance);
            var tick, key := Tick(tenant, now, Accounts(c, db, tenant, now), mark), (tenant, c.LocalDate(now));
            if tick.accounts == [] then after.outbox == db.outbox
            else if WarmDue(c, db, tenant, now, chance)
            then DosesOr(after, provided, "warm", PickedFor(c, provided, cursors, tick, true, chance.locked), now, key)
            else if ColdDue(c, db, tenant, now, chance)
            then DosesOr(after, provided, "cold", PickedFor(c, provided, cursors, tick, false, chance.locked), now, key)
            else after == provided
  {
    var accounts := Accounts(c, db, tenant, now);
    if accounts != [] {
      EnsuredSeesTheSame(c, db, tenant, now, chance);
      QuietQuotedDoses(c, Provided(c, db, tenant, now, chance), cursors, Tick(tenant, now, accounts, mark), chance);
    }
  }

  /**
   Without accounts an undisturbed tick postpones exactly the due retries of the tenant's live processing campaigns,
   to one and the same instant: the next opening of the window by the local clock. Nothing else changes.
   */
  lemma IdleTickPostpones(c: Config, db: Db, cursors: map<Uuid, nat>, tenant: Uuid, now: Time, mark: nat,
                          chance: Chance)
    returns (next: Time)
    requires c.Valid() && Accounts(c, db, tenant, now) == []
    ensures now < next <= now + 86_400_000_000 &&
            (next + c.utcOffset) % 86_400_000_000 ==
            c.windowStartHour * 3_600_000_000 + c.windowStartMinute * 60_000_000
    ensures var after := QuietTick(c, db, cursors, tenant, now, mark, chance);
            after.cursors == cursors && after.db == db.(targets := after.db.targets) &&
            after.db.targets.Keys == db.targets.Keys &&
            forall id :: id in db.targets && db.targets[id].campaign in db.campaigns ==>
              var t, k := db.targets[id], db.campaigns[db.targets[id].campaign];
              after.db.targets[id] ==
              if k.tenant == tenant && k.status == Processing && !k.deleted && t.status == RetryPending &&
                 (t.nextAttemptAt.None? || t.nextAttemptAt.value <= now)
              then t.(nextAttemptAt := Some(next)) else t
  {
    next := c.NextDayWorkStart(now);
    NextDayWorkStartIsEarliest(c, now, next);
  }

  // ---------------------------------------------------------------- the row of a tick

  /**
   One row was queued for a target of the tenant. Its account is the one the target's chat is known to, if
   that is among the accounts, and the rotation stays; any other target gets the account at the tenant's cursor,
   which moves on by one. The row is addressed to the target by its own columns, and uses the chat exactly
   when it is known.
   */
  predicate IsHandOver(before: Db, cursors: map<Uuid, nat>, accounts: seq<Uuid>, tenant: Uuid, now: Time,
                       after: Effect) {
    var n, rows := |before.outbox|, after.db.outbox;
    accounts != [] && |rows| == n + 1 && rows[..n] == before.outbox &&
    var id, account := rows[n].task.taskId, rows[n].account;
    id in before.targets &&
    var t := before.targets[id];
    var key := ChatKey(tenant, t.phone, t.messengerType);
    var known := key in before.mappings;
    t.campaign in before.campaigns && before.campaigns[t.campaign].tenant == tenant &&
    (if known && before.mappings[key].account in accounts
     then account == before.mappings[key].account && after.cursors == cursors
     else
       var cursor := if tenant in cursors then cursors[tenant] else 0;
       account == accounts[cursor % |accounts|] && after.cursors == cursors[tenant := cursor + 1]) &&
    rows[n] == OutboxRow(if known then "message.send_existing_chat" else "message.send",
                         SendTask(id, t.campaign, tenant, account, account, t.phone,
                                  if t.messengerType == "" then "MAX" else t.messengerType, known,
                                  if known then before.mappings[key].chatId else "", if known then "warm" else "cold"),
                         tenant, account, now, false)
  }

  lemma ScheduledRow(c: Config, db: Db, tick: Tick, view: PendingTarget, account: Uuid, cold: bool, interval: Time)
    ensures var after := Scheduled(c, db, tick, view, account, cold, interval);
            after.outbox == db.outbox ||
            after.outbox == db.outbox + [OutboxRow(EventFor(view, cold), BuildTask(view, account, cold), view.tenantId,
                                                   account, tick.at, false)]
  {
  }

  lemma HandedRow(c: Config, db: Db, cursors: map<Uuid, nat>, tick: Tick, id: Uuid, cold: bool, interval: Time)
    requires Selectable(db, tick.at, tick.tenant, !cold, id) && tick.accounts != []
    ensures var after := Handed(c, db, cursors, tick, PendingView(db, !cold, id), cold, interval);
            after.db.outbox == db.outbox ||
            IsHandOver(db, cursors, tick.accounts, tick.tenant, tick.at, after)
  {
    var view := PendingView(db, !cold, id);
    PickedInTurn(db, cursors, tick.tenant, tick.accounts, !cold, id);
    ScheduledRow(c, db, tick, view, Turn(db, cursors, tick.tenant, tick.accounts, id).0, cold, interval);
  }

  lemma NextRow(c: Config, db: Db, cursors: map<Uuid, nat>, tick: Tick, chance: Chance, cold: bool, interval: Time)
    requires tick.accounts != []
    ensures var next := NextPending(db, db.targetOrder, tick.at, tick.tenant, !cold, chance.locked);
            next.Some? ==>
              var after := Handed(c, db, cursors, tick, next.value, cold, interval);
              after.db.outbox == db.outbox || IsHandOver(db, cursors, tick.accounts, tick.tenant, tick.at, after)
  {
    var next := NextPending(db, db.targetOrder, tick.at, tick.tenant, !cold, chance.locked);
    NextPendingIsSelectable(db, db.targetOrder, tick.at, tick.tenant, !cold, chance.locked);
    if next.Some? { HandedRow(c, db, cursors, tick, next.value.targetId, cold, interval); }
  }

  lemma QuotedRow(c: Config, db: Db, cursors: map<Uuid, nat>, tick: Tick, quota: Quota, chance: Chance)
    requires tick.accounts != []
    ensures var after := QuietQuoted(c, db, cursors, tick, quota, chance);
            after.db.outbox == db.outbox || IsHandOver(db, cursors, tick.accounts, tick.tenant, tick.at, after)
  {
    NextRow(c, db, cursors, tick, chance, false, 0);
    NextRow(c, db, cursors, tick, chance, true, RandomColdInterval(c, chance.intervalDraw));
  }

  /**
   Whatever an undisturbed tick doses, warm or cold, goes to the account the target's chat is known to if that
   account is listed, without touching the rotation, and otherwise to the next account in turn.
   */
  lemma KnownChatKeepsItsAccount(c: Config, db: Db, cursors: map<Uuid, nat>, tenant: Uuid, now: Time, mark: nat,
                                 chance: Chance)
    ensures var after := QuietTick(c, db, cursors, tenant, now, mark, chance);
            after.db.outbox == db.outbox ||
            IsHandOver(db, cursors, Accounts(c, db, tenant, now), tenant, now, after)
  {
    var accounts, provided := Accounts(c, db, tenant, now), Provided(c, db, tenant, now, chance);
    if accounts != [] {
      QuotedRow(c, provided, cursors, Tick(tenant, now, accounts, mark), provided.quotas[(tenant, c.LocalDate(now))],
                chance);
    }
  }

  /** Where the UTC date is the local date, every listed account has such a slot. */
  lemma ListedAccountsHaveSlots(c: Config, db: Db, tenant: Uuid, now: Time)
    requires UtcDate(now) == c.LocalDate(now)
    ensures HasSlots(db, Accounts(c, db, tenant, now), now)
  {
  }

  /** Where the dates differ a listed account may have none: usage counts under UTC, listing looks up the local date. */
  lemma ListedAccountsMayLackSlots(c: Config, db: Db, tenant: Uuid, now: Time, account: Uuid)
    requires UtcDate(now) != c.LocalDate(now)
    requires account in Accounts(c, db, tenant, now)
    ensures var full := db.(usage := db.usage[(account, UtcDate(now)) := db.accounts[account].dailyLimit]);
            account in Accounts(c, full, tenant, now) && !HasDailySlot(full, account, UtcDate(now))
  {
  }

  /**
   What holds along protocol runs holds across ticks and checks, from the state before the first to
   the state after the last: a campaign that is over stays over and gets at most the rows of the
   dosers that held one of its targets at the beginning.
   */
  lemma StopHoldsAcross(c: Config, start: World, before: seq<Step>, after: seq<Step>, campaign: Uuid)
    requires before <= after && Legal(c, start, after)
    requires Legal(c, start, before) && Lifecycle.Over(Run(c, start, before).db, campaign)
    ensures var w, later := Run(c, start, before), Run(c, start, after);
            Lifecycle.Over(later.db, campaign) &&
            CountRows(c, later.db.outbox, ForCampaign(campaign)) <=
            CountRows(c, w.db.outbox, ForCampaign(campaign)) + CountHolding(c, w.dosers, HeldTarget(campaign))
  {
    TraceContinues(c, start, before, after);
    Lifecycle.StopIsEffective(c, Run(c, start, before), after[|before|..], campaign);
  }

  /** The same on the mutable tables: `before` is the trace and `w` the world when the ticks began. */
  lemma TablesAfterStop(env: Environment, before: seq<Step>, w: World, campaign: Uuid)
    requires env.Valid() && before <= env.trace && Legal(env.c, env.start, before) && Run(env.c, env.start, before) == w
    requires Lifecycle.Over(w.db, campaign)
    ensures campaign in env.repo.campaigns && env.repo.campaigns[campaign].status !in {Draft, Processing}
    ensures CountRows(env.c, env.repo.outbox, ForCampaign(campaign)) <=
            CountRows(env.c, w.db.outbox, ForCampaign(campaign)) + |w.dosers|
  {
    StopHoldsAcross(env.c, env.start, before, env.trace, campaign);
  }

  /** However its ticks were disturbed, the tables a doser works on keep the books of every protocol run. */
  lemma TablesKeepTheBooks(env: Environment, tenant: Uuid, date: int)
    requires env.Valid() && Initial(env.c, env.start)
    ensures var r := env.repo;
            (forall t :: t in r.targets ==> CountRows(env.c, r.outbox, ForTarget(t)) == r.targets[t].attempts) &&
            (forall a, d :: CountRows(env.c, r.outbox, ForUsage(a, d)) == Used(r.Snapshot(), a, d)) &&
            CountRows(env.c, r.outbox, ForContact(tenant, date, "cold")) <=
            if (tenant, date) in r.quotas then r.quotas[(tenant, date)].coldUsed else 0
  {
    Conservation.TripleEntry(env.c, env.start, env.trace);
    ColdPacing.ColdRowsWithinQuota(env.c, env.start, env.trace, tenant, date);
  }
}
