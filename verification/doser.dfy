/**
 The doser as it runs: one tick for one tenant, call by call, against the mutable repository,
 while everything else may run between any two of its calls. Every tick is a run of the protocol.
 */
module Dosing {
  import opened Domain
  import opened Settings
  import opened Tables
  import opened Protocol
  import opened Repository
  import opened RoundRobin
  import opened Environments

  // ---------------------------------------------------------------- the doser

  /** RandomColdInterval, with the random draw as a parameter. */
  function RandomColdInterval(c: Config, draw: nat): (d: Time)
    ensures c.IsColdInterval(d)
  {
    var max := if c.coldMaxMinutes < c.coldMinMinutes then c.coldMinMinutes else c.coldMaxMinutes;
    var minutes := if max > c.coldMinMinutes then c.coldMinMinutes + draw % (max - c.coldMinMinutes + 1)
      else c.coldMinMinutes;
    minutes * MINUTE
  }

  /** The interval is a whole number of minutes between the configured ones, or the first where the second is less. */
  lemma ColdIntervalInRange(c: Config, draw: nat)
    ensures exists minutes: int ::
              RandomColdInterval(c, draw) == minutes * 60_000_000 && c.coldMinMinutes <= minutes &&
              (minutes == c.coldMinMinutes || minutes <= c.coldMaxMinutes)
  {
    var d := RandomColdInterval(c, draw);
    var minutes :| c.coldMinMinutes <= minutes && d == minutes * MINUTE &&
      minutes <= (if c.coldMaxMinutes < c.coldMinMinutes then c.coldMinMinutes else c.coldMaxMinutes);
    assert d == minutes * 60_000_000;
  }

  /** Each of these may be drawn. */
  lemma ColdIntervalsDrawn(c: Config, minutes: int) returns (draw: nat)
    requires c.coldMinMinutes <= minutes && (minutes == c.coldMinMinutes || minutes <= c.coldMaxMinutes)
    ensures RandomColdInterval(c, draw) == minutes * 60_000_000
  {
    draw := minutes - c.coldMinMinutes;
    if c.coldMaxMinutes > c.coldMinMinutes {
      SmallMod(draw, c.coldMaxMinutes - c.coldMinMinutes + 1);
    }
  }

  /**
   What a tick cannot choose: the others' steps between its calls, which calls the database serves,
   the rows other transactions hold locked, and the random draws.
   */
  datatype Chance = Chance(others: nat -> seq<Step>, up: nat -> bool, locked: set<Uuid>, limitDraw: nat,
                           intervalDraw: nat)

  /** Nothing else runs and no call fails. */
  ghost predicate Quiet(chance: Chance) {
    forall i: nat :: chance.others(i) == [] && chance.up(i)
  }

  // ---------------------------------------------------------------- an undisturbed tick

  datatype Effect = Effect(db: Db, cursors: map<Uuid, nat>)

  /** The slot or the warm count, and the claim, for a target handed to an account. */
  function Scheduled(c: Config, db: Db, tick: Tick, view: PendingTarget, account: Uuid, cold: bool,
                     interval: Time): Db {
    var date := c.LocalDate(tick.at);
    var outcome := ClaimOutcomeOf(db, tick.at, view.targetId, account, tick.at);
    var slot := SlotAvailable(db, tick.tenant, date, tick.at, interval);
    var before := if cold then Tables.TryReserveColdSlot(db, tick.tenant, date, tick.at, interval) else db;
    var after := Claim(before, tick.at, view.targetId, view.tenantId, account, EventFor(view, cold),
                       BuildTask(view, account, cold), tick.at);
    if cold then (if slot then after else db)
    else if outcome == Refused then db
    else Tables.IncrementWarmUsed(after, tick.tenant, date)
  }

  /** The account the rotation hands the target to, with the tables and the rotation afterwards. */
  function Handed(c: Config, db: Db, cursors: map<Uuid, nat>, tick: Tick, view: PendingTarget, cold: bool,
                  interval: Time): Effect {
    var request := Request(tick.tenant, tick.accounts, view.preferred);
    var account := Picked(cursors, request);
    if account.None? then Effect(db, cursors)
    else Effect(Scheduled(c, db, tick, view, account.value, cold, interval), CursorsAfter(cursors, request))
  }

  function QuietCold(c: Config, db: Db, cursors: map<Uuid, nat>, tick: Tick, quota: Quota, chance: Chance): Effect {
    var interval := RandomColdInterval(c, chance.intervalDraw);
    var next := NextPending(db, db.targetOrder, tick.at, tick.tenant, false, chance.locked);
    if ColdAllowed(c, tick.at, quota, interval) &&
      next.Some? then Handed(c, db, cursors, tick, next.value, true, interval)
    else Effect(db, cursors)
  }

  function QuietQuoted(c: Config, db: Db, cursors: map<Uuid, nat>, tick: Tick, quota: Quota, chance: Chance): Effect {
    var next := NextPending(db, db.targetOrder, tick.at, tick.tenant, true, chance.locked);
    if quota.warmUsed < c.limitWarmDaily && next.Some? then Handed(c, db, cursors, tick, next.value, false, 0)
    else QuietCold(c, db, cursors, tick, quota, chance)
  }

  function QuietListed(c: Config, db: Db, cursors: map<Uuid, nat>, tick: Tick, chance: Chance): Effect {
    var key := (tick.tenant, c.LocalDate(tick.at));
    var provided := EnsureQuota(db, key.0, key.1, RandomColdLimit(c, chance.limitDraw));
    QuietQuoted(c, provided, cursors, tick, provided.quotas[key], chance)
  }

  /** One tick at time `now`: retries postponed without an account, else at most one target dosed. */
  function QuietTick(c: Config, db: Db, cursors: map<Uuid, nat>, tenant: Uuid, now: Time, mark: nat,
                     chance: Chance): Effect {
    var accounts := Listing(db, db.accountOrder, tenant, c.LocalDate(now), now);
    if accounts == [] then Effect(DeferRetries(db, tenant, c.NextDayWorkStart(now), now), cursors)
    else QuietListed(c, db, cursors, Tick(tenant, now, accounts, mark), chance)
  }

  function Choosing(target: Uuid, account: Uuid, cold: bool, interval: Time): DoserStep {
    if cold then ChooseCold(target, account, interval) else ChooseWarm(target, account)
  }

  /**
   The account a target is due by its own columns, with the rotation afterwards: the one its chat is known to, if
   that is offered, and then the rotation stays; else the one at the tenant's cursor.
   */
  function Turn(db: Db, cursors: map<Uuid, nat>, tenant: Uuid, accounts: seq<Uuid>, id: Uuid): (Uuid, map<Uuid, nat>)
    requires id in db.targets && accounts != []
  {
    var key := ChatKey(tenant, db.targets[id].phone, db.targets[id].messengerType);
    var cursor := if tenant in cursors then cursors[tenant] else 0;
    if key in db.mappings && db.mappings[key].account in accounts then (db.mappings[key].account, cursors)
    else (accounts[cursor % |accounts|], cursors[tenant := cursor + 1])
  }

  lemma PickedInTurn(db: Db, cursors: map<Uuid, nat>, tenant: Uuid, accounts: seq<Uuid>, warm: bool, id: Uuid)
    requires id in db.targets && db.targets[id].campaign in db.campaigns && accounts != []
    requires db.campaigns[db.targets[id].campaign].tenant == tenant
    ensures var request := Request(tenant, accounts, PendingView(db, warm, id).preferred);
            Picked(cursors, request) == Some(Turn(db, cursors, tenant, accounts, id).0) &&
            CursorsAfter(cursors, request) == Turn(db, cursors, tenant, accounts, id).1
  {
  }

  class CampaignDoser {
    const env: Environment
    var rrCursor: map<Uuid, nat>

    constructor (env: Environment)
      ensures this.env == env && rrCursor == map[]
    {
      this.env := env;
      rrCursor := map[];
    }

    /** The preferred account if it is listed, else the next one of the tenant's rotation. */
    method PickAccount(tenant: Uuid, accounts: seq<Uuid>, preferred: Option<Uuid>) returns (account: Option<Uuid>)
      modifies this`rrCursor
      ensures account == Picked(old(rrCursor), Request(tenant, accounts, preferred))
      ensures rrCursor == CursorsAfter(old(rrCursor), Request(tenant, accounts, preferred))
    {
      if |accounts| == 0 {
        return None;
      }
      if preferred.Some? {
        for i := 0 to |accounts|
          invariant preferred.value !in accounts[..i]
        {
          if accounts[i] == preferred.value {
            return Some(accounts[i]);
          }
        }
        assert accounts[..|accounts|] == accounts;
      }
      var cursor := if tenant in rrCursor then rrCursor[tenant] else 0;
      var idx := cursor % |accounts|;
      rrCursor := rrCursor[tenant := cursor + 1];
      return Some(accounts[idx]);
    }

    method ReserveCold(up: bool, tick: Tick, view: PendingTarget, account: Uuid, interval: Time)
      returns (reserved: bool)
      requires env.Doses() && env.Phase() == Chosen(tick, view, account, true, interval) && view.tenantId == tick.tenant
      modifies env`trace, env`world, env.repo
      ensures env.Doses() && env.Phase() == if reserved then SlotHeld(tick, view, account) else Idle
      ensures env.trace == old(env.trace) + [Doser(env.me.i, if up then ReserveSlot else GiveUp)]
      ensures var before, date := old(env.world.db), env.c.LocalDate(tick.at);
              reserved == (up && SlotAvailable(before, tick.tenant, date, tick.at, interval)) &&
              env.world.now == old(env.world.now) &&
              env.world.db == if up then Tables.TryReserveColdSlot(before, tick.tenant, date, tick.at, interval)
              else before
    {
      var r := env.repo.TryReserveColdSlot(up, view.tenantId, env.c.LocalDate(tick.at), tick.at, interval);
      env.Record(if r.Ok? then ReserveSlot else GiveUp);
      return r.Ok? && r.value;
    }

    /** `called` says that the call returned without an error, whether or not it found the target eligible. */
    method Assign(up: bool, tick: Tick, view: PendingTarget, account: Uuid, isCold: bool) returns (called: bool)
      requires env.Doses() && view.tenantId == tick.tenant
      requires env.Phase() == if isCold then SlotHeld(tick, view, account) else Chosen(tick, view, account, false, 0)
      modifies env`trace, env`world, env.repo
      ensures env.Doses() && env.Phase() == if called && !isCold then WarmOwed(tick) else Idle
      ensures env.trace == old(env.trace) + [Doser(env.me.i, if called then ClaimTarget else GiveUp)]
      ensures env.world.now == old(env.world.now)
      ensures env.world.db ==
              if up then Claim(old(env.world.db), old(env.world.now), view.targetId, view.tenantId, account,
                               EventFor(view, isCold), BuildTask(view, account, isCold), tick.at)
              else old(env.world.db)
      ensures called == (up &&
                         ClaimOutcomeOf(old(env.world.db), old(env.world.now), view.targetId, account,
                                        tick.at) != Refused)
    {
      var contactType := "warm";
      var useChatID := view.isWarm && view.chatId != "";
      if isCold {
        contactType := "cold";
        useChatID := false;
      }
      var messengerType := if view.messengerType == "" then "MAX" else view.messengerType;
      var eventType := EVENT_SEND;
      if useChatID {
        eventType := EVENT_SEND_EXISTING_CHAT;
      }
      var payload := SendTask(view.targetId, view.campaignId, view.tenantId, account, account, view.phone,
                              messengerType, useChatID, view.chatId, contactType);
      var r := env.repo.AssignAccountAndEnqueueTarget(up, env.world.now, view.targetId, view.tenantId, account,
                                                      eventType, payload, tick.at);
      env.Record(if r.Ok? then ClaimTarget else GiveUp);
      return r.Ok?;
    }

    /**
     The warm count follows exactly when the claim returned without an error, even when it found the
     target not eligible; `more` is what others did in between.
     */
    method AssignWarm(tick: Tick, view: PendingTarget, account: Uuid, chance: Chance) returns (ghost more: seq<Step>)
      requires env.Doses() && env.Phase() == Chosen(tick, view, account, false, 0) && view.tenantId == tick.tenant
      modifies env`trace, env`world, env.repo
      ensures env.Doses() && env.Phase().Idle? && NoneBy(more, env.me)
      ensures var outcome := ClaimOutcomeOf(old(env.world.db), old(env.world.now), view.targetId, account, tick.at);
              if !chance.up(6) || outcome == Refused then env.trace == old(env.trace) + [Doser(env.me.i, GiveUp)]
              else env.trace == old(env.trace) + [Doser(env.me.i, ClaimTarget)] + more +
                                [Doser(env.me.i, if chance.up(7) then CountWarm else GiveUp)]
      ensures Quiet(chance) && old(env.world.now) == tick.at ==>
                env.world.db == Scheduled(env.c, old(env.world.db), tick, view, account, false, 0)
    {
      var called := Assign(chance.up(6), tick, view, account, false);
      more := [];
      if called {
        more := env.Interleave(chance.others(7));
        CountWarmSend(chance.up(7), tick, view.tenantId);
      }
    }

    method CountWarmSend(up: bool, tick: Tick, tenant: Uuid)
      requires env.Doses() && env.Phase() == WarmOwed(tick) && tenant == tick.tenant
      modifies env`trace, env`world, env.repo
      ensures env.Doses() && env.Phase().Idle? && env.world.now == old(env.world.now)
      ensures env.trace == old(env.trace) + [Doser(env.me.i, if up then CountWarm else GiveUp)]
      ensures env.world.db == if up then Tables.IncrementWarmUsed(old(env.world.db), tenant, env.c.LocalDate(tick.at))
                              else old(env.world.db)
    {
      var ok := env.repo.IncrementWarmUsed(up, tenant, env.c.LocalDate(tick.at));
      env.Record(if ok then CountWarm else GiveUp);
    }

    /**
     A claim is tried exactly when the slot was reserved, and made exactly when it is then served and not
     refused; `more` is what others did in between, and `met` the world it found.
     */
    method AssignCold(tick: Tick, view: PendingTarget, account: Uuid, interval: Time, chance: Chance)
      returns (claimed: bool, ghost more: seq<Step>, ghost met: World)
      requires env.Doses() && env.Phase() == Chosen(tick, view, account, true, interval) && view.tenantId == tick.tenant
      modifies env`trace, env`world, env.repo
      ensures env.Doses() && env.Phase().Idle? && NoneBy(more, env.me)
      ensures var slot := SlotAvailable(old(env.world.db), tick.tenant, env.c.LocalDate(tick.at), tick.at, interval);
              if !chance.up(5) then !claimed && env.trace == old(env.trace) + [Doser(env.me.i, GiveUp)]
              else if !slot then !claimed && env.trace == old(env.trace) + [Doser(env.me.i, ReserveSlot)]
              else
                var before := old(env.trace) + [Doser(env.me.i, ReserveSlot)] + more;
                Legal(env.c, env.start, before) && met == Run(env.c, env.start, before) &&
                env.trace == before + [Doser(env.me.i, if claimed then ClaimTarget else GiveUp)] &&
                claimed == (chance.up(6) &&
                            ClaimOutcomeOf(met.db, met.now, view.targetId, account, tick.at) != Refused)
      ensures Quiet(chance) && old(env.world.now) == tick.at ==>
                env.world.db == Scheduled(env.c, old(env.world.db), tick, view, account, true, interval)
    {
      var reserved := ReserveCold(chance.up(5), tick, view, account, interval);
      claimed, more, met := false, [], env.world;
      if reserved {
        more := env.Interleave(chance.others(6));
        met := env.world;
        claimed := Assign(chance.up(6), tick, view, account, true);
      }
    }

    method Choose(others: seq<Step>, tick: Tick, view: PendingTarget, account: Uuid, isCold: bool, interval: Time)
      requires env.Doses() && Selectable(env.world.db, env.world.now, tick.tenant, !isCold, view.targetId)
      requires view == PendingView(env.world.db, !isCold, view.targetId) && account in tick.accounts
      requires if isCold then env.Phase().WarmDone? && ColdAllowed(env.c, tick.at, env.Phase().quota, interval)
               else env.Phase().Quoted? && env.Phase().quota.warmUsed < env.c.limitWarmDaily && interval == 0
      requires env.Phase().tick == tick
      modifies env`trace, env`world, env.repo
      ensures env.Doses() && env.Phase() == Chosen(tick, view, account, isCold, interval)
      ensures old(env.trace) + [Doser(env.me.i, Choosing(view.targetId, account, isCold, interval))] <= env.trace &&
              view.tenantId == tick.tenant
      ensures others == [] ==> env.world.db == old(env.world.db) && env.world.now == old(env.world.now)
    {
      env.Record(Choosing(view.targetId, account, isCold, interval));
      ghost var _ := env.Interleave(others);
    }

    method HandTo(tick: Tick, view: PendingTarget, account: Uuid, isCold: bool, interval: Time, chance: Chance)
      requires env.Doses() && Selectable(env.world.db, env.world.now, tick.tenant, !isCold, view.targetId)
      requires view == PendingView(env.world.db, !isCold, view.targetId) && account in tick.accounts
      requires if isCold then env.Phase().WarmDone? && ColdAllowed(env.c, tick.at, env.Phase().quota, interval)
               else env.Phase().Quoted? && env.Phase().quota.warmUsed < env.c.limitWarmDaily && interval == 0
      requires env.Phase().tick == tick
      modifies env`trace, env`world, env.repo
      ensures env.Doses() && env.Phase().Idle?
      ensures old(env.trace) + [Doser(env.me.i, Choosing(view.targetId, account, isCold, interval))] <= env.trace
      ensures Quiet(chance) && old(env.world.now) == tick.at ==>
                env.world.db == Scheduled(env.c, old(env.world.db), tick, view, account, isCold, interval)
    {
      Choose(chance.others(5), tick, view, account, isCold, interval);
      if isCold {
        var _, _, _ := AssignCold(tick, view, account, interval, chance);
      } else {
        ghost var _ := AssignWarm(tick, view, account, chance);
      }
    }

    /**
     The selected target is handed to the account its chat is known to, if that is listed, and the rotation stays;
     else to the account at the tenant's cursor. The choice is the call's first step, and its claim is for that account.
     */
    method ScheduleTarget(tick: Tick, view: PendingTarget, isCold: bool, interval: Time, chance: Chance)
      requires env.Doses() && Selectable(env.world.db, env.world.now, tick.tenant, !isCold, view.targetId)
      requires view == PendingView(env.world.db, !isCold, view.targetId) && tick.accounts != []
      requires if isCold then env.Phase().WarmDone? && ColdAllowed(env.c, tick.at, env.Phase().quota, interval)
               else env.Phase().Quoted? && env.Phase().quota.warmUsed < env.c.limitWarmDaily && interval == 0
      requires env.Phase().tick == tick
      modifies this`rrCursor, env`trace, env`world, env.repo
      ensures env.Doses() && env.Phase().Idle?
      ensures rrCursor == CursorsAfter(old(rrCursor), Request(tick.tenant, tick.accounts, view.preferred))
      ensures var turn := Turn(old(env.world.db), old(rrCursor), tick.tenant, tick.accounts, view.targetId);
              old(env.trace) + [Doser(env.me.i, Choosing(view.targetId, turn.0, isCold, interval))] <= env.trace &&
              rrCursor == turn.1
      ensures Quiet(chance) && old(env.world.now) == tick.at ==>
                Effect(env.world.db, rrCursor) ==
                Handed(env.c, old(env.world.db), old(rrCursor), tick, view, isCold, interval)
    {
      PickedInTurn(env.world.db, rrCursor, tick.tenant, tick.accounts, !isCold, view.targetId);
      var account := PickAccount(view.tenantId, tick.accounts, view.preferred);
      HandTo(tick, view, account.value, isCold, interval, chance);
    }

    method SelectCold(tick: Tick, quota: Quota, interval: Time, chance: Chance)
      requires env.Doses() && env.Phase() == WarmDone(tick, quota) && tick.accounts != []
      requires ColdAllowed(env.c, tick.at, quota, interval)
      modifies this`rrCursor, env`trace, env`world, env.repo
      ensures env.Doses() && env.Phase().Idle?
      ensures old(env.trace) <= env.trace
      ensures Quiet(chance) && old(env.world.now) == tick.at ==>
                var db := old(env.world.db);
                var next := NextPending(db, db.targetOrder, tick.at, tick.tenant, false, chance.locked);
                Effect(env.world.db, rrCursor) ==
                if next.Some? then Handed(env.c, db, old(rrCursor), tick, next.value, true, interval)
                else Effect(db, old(rrCursor))
    {
      ghost var _ := env.Interleave(chance.others(4));
      var target := env.repo.GetNextPendingTarget(chance.up(4), env.world.now, tick.tenant, false, chance.locked);
      NextPendingIsSelectable(env.world.db, env.world.db.targetOrder, env.world.now, tick.tenant, false, chance.locked);
      if target.Err? || target.value.None? {
        env.Record(GiveUp);
        return;
      }
      ScheduleTarget(tick, target.value.value, true, interval, chance);
    }

    /** The cold half of a tick: the checks on the tick's own clock reading and quota row, then selection. */
    method DoseCold(tick: Tick, quota: Quota, chance: Chance)
      requires env.Doses() && env.Phase() == WarmDone(tick, quota) && tick.accounts != []
      modifies this`rrCursor, env`trace, env`world, env.repo
      ensures env.Doses() && env.Phase().Idle?
      ensures old(env.trace) <= env.trace
      ensures Quiet(chance) && old(env.world.now) == tick.at ==>
                Effect(env.world.db, rrCursor) ==
                QuietCold(env.c, old(env.world.db), old(rrCursor), tick, quota, chance)
    {
      var interval := RandomColdInterval(env.c, chance.intervalDraw);
      if !env.c.IsWithinWorkWindow(tick.at) || quota.coldUsed >= quota.coldLimit ||
         (quota.lastColdPublishAt.Some? && tick.at - quota.lastColdPublishAt.value < interval) {
        env.Record(GiveUp);
        return;
      }
      SelectCold(tick, quota, interval, chance);
    }

    /** The next warm target, after whatever else ran. */
    method SelectWarm(others: seq<Step>, up: bool, tick: Tick, quota: Quota, locked: set<Uuid>)
      returns (next: Result<Option<PendingTarget>>)
      requires env.Doses() && env.Phase() == Quoted(tick, quota)
      modifies env`trace, env`world, env.repo
      ensures env.Doses() && env.Phase() == if next.Err? then Idle else Quoted(tick, quota)
      ensures old(env.trace) <= env.trace
      ensures var db := env.world.db;
              next == if up then Ok(NextPending(db, db.targetOrder, env.world.now, tick.tenant, true, locked)) else Err
      ensures next.Ok? && next.value.Some? ==>
                var view := next.value.value;
                Selectable(env.world.db, env.world.now, tick.tenant, true, view.targetId) &&
                view == PendingView(env.world.db, true, view.targetId)
      ensures others == [] ==> env.world.db == old(env.world.db) && env.world.now == old(env.world.now)
    {
      ghost var _ := env.Interleave(others);
      next := env.repo.GetNextPendingTarget(up, env.world.now, tick.tenant, true, locked);
      NextPendingIsSelectable(env.world.db, env.world.db.targetOrder, env.world.now, tick.tenant, true, locked);
      if next.Err? {
        env.Record(GiveUp);
      }
    }

    /** From the quota row on: a warm target while the warm quota lasts, else a cold one. */
    method DoseQuoted(tick: Tick, quota: Quota, chance: Chance)
      requires env.Doses() && env.Phase() == Quoted(tick, quota) && tick.accounts != []
      modifies this`rrCursor, env`trace, env`world, env.repo
      ensures env.Doses() && env.Phase().Idle?
      ensures old(env.trace) <= env.trace
      ensures Quiet(chance) && old(env.world.now) == tick.at ==>
                Effect(env.world.db, rrCursor) ==
                QuietQuoted(env.c, old(env.world.db), old(rrCursor), tick, quota, chance)
    {
      if quota.warmUsed < env.c.limitWarmDaily {
        var target := SelectWarm(chance.others(3), chance.up(3), tick, quota, chance.locked);
        if target.Err? {
          return;
        }
        if target.value.Some? {
          ScheduleTarget(tick, target.value.value, false, 0, chance);
          return;
        }
      }
      env.Record(SkipWarm);
      DoseCold(tick, quota, chance);
    }

    method ProvideQuota(others: seq<Step>, up: bool, tick: Tick, draw: nat) returns (created: bool)
      requires env.Doses() && env.Phase() == Listed(tick)
      modifies env`trace, env`world, env.repo
      ensures env.Doses() && env.Phase() == if up then Provisioned(tick) else Idle
      ensures created == up && old(env.trace) <= env.trace
      ensures others == [] ==>
                env.world.now == old(env.world.now) &&
                env.world.db == if up
                then EnsureQuota(old(env.world.db), tick.tenant, env.c.LocalDate(tick.at), RandomColdLimit(env.c, draw))
                                else old(env.world.db)
    {
      ghost var _ := env.Interleave(others);
      var limit: int;
      created, limit := env.repo.CreateTenantDailyQuota(up, env.c, tick.tenant, env.c.LocalDate(tick.at), draw);
      env.Record(if created then EnsureQuotaRow(limit) else GiveUp);
    }

    method LoadQuota(others: seq<Step>, up: bool, tick: Tick) returns (quota: Result<Quota>)
      requires env.Doses() && env.Phase() == Provisioned(tick)
      modifies env`trace, env`world, env.repo
      ensures env.Doses() && env.Phase() == if quota.Ok? then Quoted(tick, quota.value) else Idle
      ensures old(env.trace) <= env.trace
      ensures var key := (tick.tenant, env.c.LocalDate(tick.at));
              quota == if up && key in env.world.db.quotas then Ok(env.world.db.quotas[key]) else Err
      ensures others == [] ==> env.world.db == old(env.world.db) && env.world.now == old(env.world.now)
    {
      ghost var _ := env.Interleave(others);
      quota := env.repo.LoadTenantDailyQuota(up, tick.tenant, env.c.LocalDate(tick.at));
      env.Record(if quota.Ok? then ReadQuota else GiveUp);
    }

    /** From a non-empty account listing on. */
    method DoseListed(tick: Tick, chance: Chance)
      requires env.Doses() && env.Phase() == Listed(tick) && tick.accounts != []
      modifies this`rrCursor, env`trace, env`world, env.repo
      ensures env.Doses() && env.Phase().Idle?
      ensures old(env.trace) <= env.trace
      ensures Quiet(chance) && old(env.world.now) == tick.at ==>
                Effect(env.world.db, rrCursor) == QuietListed(env.c, old(env.world.db), old(rrCursor), tick, chance)
    {
      var created := ProvideQuota(chance.others(1), chance.up(1), tick, chance.limitDraw);
      if !created {
        return;
      }
      var quota := LoadQuota(chance.others(2), chance.up(2), tick);
      if quota.Err? {
        return;
      }
      DoseQuoted(tick, quota.value, chance);
    }

    /** The tick's account listing at clock reading `now`. */
    method ListTick(others: seq<Step>, up: bool, tenant: Uuid, now: Time) returns (tick: Option<Tick>)
      requires env.Doses() && env.Phase().Idle? && now <= env.world.now
      modifies env`trace, env`world, env.repo
      ensures env.Doses() && (tick.Some? <==> up) && old(env.trace) <= env.trace
      ensures env.Phase() == if tick.None? then Idle
                             else if tick.value.accounts == [] then Deferring(tenant, now)
                             else Listed(tick.value)
      ensures others == [] ==>
                env.world.db == old(env.world.db) && env.world.now == old(env.world.now) &&
                (up ==> tick == Some(Tick(tenant, now,
                                          Listing(old(env.world.db), old(env.world.db).accountOrder, tenant,
                                                  env.c.LocalDate(now), now),
                                          |old(env.world.log)|)))
    {
      ghost var _ := env.Interleave(others);
      var listed := env.repo.ListAssignableTenantAccounts(up, tenant, env.c.LocalDate(now), now);
      if listed.Err? {
        return None;
      }
      tick := Some(Tick(tenant, now, listed.value, |env.world.log|));
      env.Record(ListAccounts(tenant, now));
    }

    method DeferRetryTargets(others: seq<Step>, up: bool, tenant: Uuid, at: Time)
      requires env.Doses() && env.Phase() == Deferring(tenant, at)
      modifies env`trace, env`world, env.repo
      ensures env.Doses() && env.Phase().Idle? && old(env.trace) <= env.trace
      ensures others == [] && up ==>
                env.world.db == DeferRetries(old(env.world.db), tenant, env.c.NextDayWorkStart(at), old(env.world.now))
    {
      ghost var _ := env.Interleave(others);
      var ok := env.repo.DeferRetryTargetsWithoutAccounts(up, env.world.now, tenant, env.c.NextDayWorkStart(at));
      env.Record(if ok then Defer else GiveUp);
    }

    /**
     One tick for one tenant. Whatever fails and whatever runs between its calls, the tick is a
     stretch of the protocol run that its trace records: the trace goes on from where it was, and the
     tables end as that run leaves them. A tick that nothing disturbs does exactly what QuietTick says.
     */
    method DoseTenant(tenant: Uuid, chance: Chance)
      requires env.Doses() && env.Phase().Idle?
      modifies this`rrCursor, env`trace, env`world, env.repo
      ensures env.Doses() && env.Phase().Idle?
      ensures old(env.trace) <= env.trace
      ensures Quiet(chance) ==>
                Effect(env.repo.Snapshot(), rrCursor) ==
                QuietTick(env.c, old(env.repo.Snapshot()), old(rrCursor), tenant, old(env.world.now),
                          |old(env.world.log)|, chance)
    {
      var now := env.world.now;
      var tick := ListTick(chance.others(0), chance.up(0), tenant, now);
      if tick.None? {
        return;
      }
      if |tick.value.accounts| == 0 {
        DeferRetryTargets(chance.others(1), chance.up(1), tenant, now);
        return;
      }
      DoseListed(tick.value, chance);
    }

    method DoseAllTenants(tenants: seq<Uuid>, chances: nat -> Chance)
      requires env.Doses() && env.Phase().Idle?
      modifies this`rrCursor, env`trace, env`world, env.repo
      ensures env.Doses() && env.Phase().Idle? && old(env.trace) <= env.trace
    {
      for i := 0 to |tenants|
        invariant env.Doses() && env.Phase().Idle? && old(env.trace) <= env.trace
      {
        DoseTenant(tenants[i], chances(i));
      }
    }
  }
}
