/** What the faulty reports lead to: a target that a report released is dosed again. */
module Redosing {
  import opened Domain
  import opened Settings
  import opened Tables
  import opened Protocol
  import opened Counting
  import opened Faults
  import opened DoseSpacing
  import opened Runs

  // ---------------------------------------------------------------- a claimable warm target can be dosed

  function QuotaDate(c: Config, w: World): int {
    c.LocalDate(w.now)
  }

  /** A doser is free, and an account and the warm quota are left for the tenant. */
  predicate CanServe(c: Config, w: World, i: nat, tenant: Uuid, account: Uuid) {
    i < |w.dosers| && w.dosers[i].Idle? &&
    account in Listing(w.db, w.db.accountOrder, tenant, QuotaDate(c, w), w.now) &&
    HasDailySlot(w.db, account, UtcDate(w.now)) &&
    (if (tenant, QuotaDate(c, w)) in w.db.quotas then w.db.quotas[(tenant, QuotaDate(c, w))].warmUsed
     else 0) < c.limitWarmDaily
  }

  function Doses(c: Config, i: nat, tenant: Uuid, now: Time, target: Uuid, account: Uuid): seq<Step> {
    [Doser(i, ListAccounts(tenant, now)), Doser(i, EnsureQuotaRow(c.limitColdMin)), Doser(i, ReadQuota)] +
    [Doser(i, ChooseWarm(target, account)), Doser(i, ClaimTarget), Doser(i, GiveUp)]
  }

  lemma Quotes(c: Config, w: World, i: nat, tenant: Uuid, account: Uuid) returns (tick: Tick, quota: Quota)
    requires CanServe(c, w, i, tenant, account)
    ensures var steps := [Doser(i, ListAccounts(tenant, w.now)), Doser(i, EnsureQuotaRow(c.limitColdMin)),
                          Doser(i, ReadQuota)];
            Legal(c, w, steps) &&
            Run(c, w, steps) == w.(db := EnsureQuota(w.db, tenant, QuotaDate(c, w), c.limitColdMin),
                                   dosers := w.dosers[i := Quoted(tick, quota)]) &&
            tick.tenant == tenant && tick.at == w.now && tick.mark == |w.log| && account in tick.accounts &&
            quota.warmUsed < c.limitWarmDaily
  {
    var s1, s2, s3 := Doser(i, ListAccounts(tenant, w.now)), Doser(i, EnsureQuotaRow(c.limitColdMin)),
      Doser(i, ReadQuota);
    tick := Tick(tenant, w.now, Listing(w.db, w.db.accountOrder, tenant, QuotaDate(c, w), w.now), |w.log|);
    var w1 := w.(dosers := w.dosers[i := Listed(tick)]);
    assert w.log + [] == w.log;
    assert Enabled(c, w, s1) && Next(c, w, s1) == w1;
    var db := EnsureQuota(w.db, tenant, QuotaDate(c, w), c.limitColdMin);
    quota := db.quotas[(tenant, QuotaDate(c, w))];
    var w2 := w.(db := db, dosers := w.dosers[i := Provisioned(tick)]);
    assert c.IsColdLimit(c.limitColdMin);
    assert w1.dosers[i := Provisioned(tick)] == w2.dosers;
    assert Enabled(c, w1, s2) && Next(c, w1, s2) == w2;
    var w3 := w.(db := db, dosers := w.dosers[i := Quoted(tick, quota)]);
    assert w2.dosers[i := Quoted(tick, quota)] == w3.dosers;
    assert Enabled(c, w2, s3) && Next(c, w2, s3) == w3;
    TwoSteps(c, w, s1, s2);
    RunAppend(c, w, [s1, s2], s3);
    assert [s1, s2] + [s3] == [s1, s2, s3];
  }

  /** The tables after such a dose. */
  function DoseDb(w: World, db: Db, target: Uuid, account: Uuid): Db
    requires target in db.targets && db.targets[target].campaign in db.campaigns
  {
    var view := PendingView(db, true, target);
    Claim(db, w.now, target, view.tenantId, account, EventFor(view, false), BuildTask(view, account, false), w.now)
  }

  /** One more attempt, and one more event in the target's history: the dose itself. */
  ghost predicate DosedOnce(before: World, after: World, target: Uuid, account: Uuid) {
    target in before.db.targets && target in after.db.targets &&
    after.db.targets[target].attempts == before.db.targets[target].attempts + 1 &&
    after.db.targets[target].status == Pending && after.db.targets[target].nextAttemptAt.None? &&
    exists e: Event :: e.DoseEvent? && e.target == target && e.account == account && e.time == before.now &&
                       History(after.log, OfTarget(target)) == History(before.log, OfTarget(target)) + [e]
  }

  function DoseLog(w: World, tick: Tick, campaign: Uuid, target: Uuid, account: Uuid, date: int): seq<Event> {
    w.log + [DoseEvent(target, campaign, account, w.now, tick.at, tick.mark)] + [LostWarmEvent(tick.tenant, date)]
  }

  lemma Serves(c: Config, w: World, i: nat, tick: Tick, quota: Quota, target: Uuid, account: Uuid)
    requires i < |w.dosers| && w.dosers[i] == Quoted(tick, quota) && tick.at == w.now
    requires account in tick.accounts && quota.warmUsed < c.limitWarmDaily
    requires Selectable(w.db, w.now, tick.tenant, true, target) && HasDailySlot(w.db, account, UtcDate(w.now))
    ensures var steps := [Doser(i, ChooseWarm(target, account)), Doser(i, ClaimTarget), Doser(i, GiveUp)];
            Legal(c, w, steps) &&
            Run(c, w, steps) == w.(db := DoseDb(w, w.db, target, account), dosers := w.dosers[i := Idle],
                                   log := DoseLog(w, tick, w.db.targets[target].campaign, target, account,
                                                  c.LocalDate(tick.at)))
  {
    var s1, s2, s3 := Doser(i, ChooseWarm(target, account)), Doser(i, ClaimTarget), Doser(i, GiveUp);
    var view, db := PendingView(w.db, true, target), DoseDb(w, w.db, target, account);
    var log := DoseLog(w, tick, view.campaignId, target, account, c.LocalDate(tick.at));
    var w1 := w.(dosers := w.dosers[i := Chosen(tick, view, account, false, 0)]);
    assert w.log + [] == w.log;
    assert Enabled(c, w, s1) && Next(c, w, s1) == w1;
    var w2 := w.(db := db, dosers := w.dosers[i := WarmOwed(tick)], log := log[..|log| - 1]);
    assert w1.dosers[i := WarmOwed(tick)] == w2.dosers;
    ClaimServes(c, w1, i, target, account);
    assert Enabled(c, w1, s2) && Next(c, w1, s2) == w2;
    assert w2.dosers[i := Idle] == w.dosers[i := Idle];
    assert Enabled(c, w2, s3) && Next(c, w2, s3) == w2.(dosers := w.dosers[i := Idle], log := log);
    TwoSteps(c, w, s1, s2);
    RunAppend(c, w, [s1, s2], s3);
    assert [s1, s2] + [s3] == [s1, s2, s3];
  }

  lemma ClaimServes(c: Config, w: World, i: nat, target: Uuid, account: Uuid)
    requires i < |w.dosers| && w.dosers[i].Chosen? && !w.dosers[i].cold && w.dosers[i].tick.at == w.now
    requires target in w.db.targets && w.db.targets[target].campaign in w.db.campaigns
    requires w.dosers[i].view == PendingView(w.db, true, target) && w.dosers[i].account == account
    requires ClaimOutcomeOf(w.db, w.now, target, account, w.now) == Dosed
    ensures var next := DoserNext(c, w, i, ClaimTarget);
            next.db == DoseDb(w, w.db, target, account) && next.dosers == w.dosers[i := WarmOwed(w.dosers[i].tick)] &&
            next.log == w.log + [DoseEvent(target, w.dosers[i].view.campaignId, account, w.now, w.now,
                                           w.dosers[i].tick.mark)] &&
            next == w.(db := next.db, dosers := next.dosers, log := next.log)
  {
  }

  lemma DoseHistory(w: World, tick: Tick, campaign: Uuid, target: Uuid, account: Uuid, date: int)
    ensures History(DoseLog(w, tick, campaign, target, account, date), OfTarget(target)) ==
            History(w.log, OfTarget(target)) + [DoseEvent(target, campaign, account, w.now, tick.at, tick.mark)]
  {
    var dose := DoseEvent(target, campaign, account, w.now, tick.at, tick.mark);
    HistoryAppend(w.log, dose, OfTarget(target));
    HistoryAppend(w.log + [dose], LostWarmEvent(tick.tenant, date), OfTarget(target));
  }

  /** A warm target that is selectable is dosed as soon as a doser, an account and the quota allow it. */
  lemma SelectableIsDosed(c: Config, w: World, i: nat, tenant: Uuid, target: Uuid, account: Uuid)
    requires CanServe(c, w, i, tenant, account) && Selectable(w.db, w.now, tenant, true, target)
    ensures var steps := Doses(c, i, tenant, w.now, target, account);
            Legal(c, w, steps) && DosedOnce(w, Run(c, w, steps), target, account) &&
            Run(c, w, steps).dosers == w.dosers && Run(c, w, steps).now == w.now &&
            Run(c, w, steps).db ==
            DoseDb(w, EnsureQuota(w.db, tenant, QuotaDate(c, w), c.limitColdMin), target, account)
  {
    var tick, quota := Quotes(c, w, i, tenant, account);
    var first := [Doser(i, ListAccounts(tenant, w.now)), Doser(i, EnsureQuotaRow(c.limitColdMin)), Doser(i, ReadQuota)];
    var mid := Run(c, w, first);
    Serves(c, mid, i, tick, quota, target, account);
    RunConcat(c, w, first, [Doser(i, ChooseWarm(target, account)), Doser(i, ClaimTarget), Doser(i, GiveUp)]);
    assert mid.dosers[i := Idle] == w.dosers;
    DoseIsOnce(c, w, mid.db, Run(c, w, Doses(c, i, tenant, w.now, target, account)), tick, target, account);
  }

  lemma DoseIsOnce(c: Config, w: World, provided: Db, after: World, tick: Tick, target: Uuid, account: Uuid)
    requires provided.targets == w.db.targets && provided.usage == w.db.usage && provided.accounts == w.db.accounts
    requires target in provided.targets && provided.targets[target].campaign in provided.campaigns
    requires ClaimOutcomeOf(provided, w.now, target, account, w.now) == Dosed
    requires after.db == DoseDb(w, provided, target, account)
    requires after.log == DoseLog(w, tick, w.db.targets[target].campaign, target, account, c.LocalDate(tick.at))
    ensures DosedOnce(w, after, target, account)
  {
    DoseHistory(w, tick, w.db.targets[target].campaign, target, account, c.LocalDate(tick.at));
  }

  // ---------------------------------------------------------------- a released target is dosed again

  function Releasing(target: Uuid): Step {
    Elsewhere(Report(Update(target, RetryPending, None, None), NIL))
  }

  /** Selectable as a warm target but for its status. */
  predicate WarmReachable(db: Db, tenant: Uuid, target: Uuid)
    requires target in db.targets
  {
    var t := db.targets[target];
    t.campaign in db.campaigns && db.campaigns[t.campaign].tenant == tenant &&
    db.campaigns[t.campaign].status == Processing && !db.campaigns[t.campaign].deleted &&
    (tenant, t.phone) !in db.blocked &&
    KeyOf(db, t) in db.mappings && db.mappings[KeyOf(db, t)].chatId != ""
  }

  /**
   The fault of a released target is real: from any state in which the report commits it, a free
   doser gives the target one more dose at once, the next event in its history; and where the attempts
   were used up they are now exceeded.
   */
  lemma ReleasedIsDosedAgain(c: Config, w: World, i: nat, tenant: Uuid, target: Uuid, account: Uuid)
    requires CanServe(c, w, i, tenant, account)
    requires Commits(c, w, Releasing(target), Release) && WarmReachable(w.db, tenant, target)
    ensures var steps := [Releasing(target)] + Doses(c, i, tenant, w.now, target, account);
            Legal(c, w, steps) && DosedOnce(w, Run(c, w, steps), target, account) &&
            (w.db.targets[target].attempts >= c.MaxAttempts() ==>
               Run(c, w, steps).db.targets[target].attempts > c.MaxAttempts())
  {
    var s := Releasing(target);
    var next := Next(c, w, s);
    assert Enabled(c, w, s);
    assert next.log == w.log;
    OneStep(c, w, s);
    ReleaseSelects(c, w, tenant, target);
    ListingUnchanged(w.db, next.db, w.db.accountOrder, tenant, QuotaDate(c, w), w.now);
    SelectableIsDosed(c, next, i, tenant, target, account);
    RunConcat(c, w, [s], Doses(c, i, tenant, w.now, target, account));
  }

  /**
   That dose is duplicate exactly when the report came too early: the target's doses are still kept
   apart if and only if a retry decision ends its history and RetryDelay has passed since. Every
   reachable state logs a dose for each attempt.
   */
  lemma ReleasedDoseSpacedExactly(c: Config, w: World, i: nat, tenant: Uuid, target: Uuid, account: Uuid)
    requires CanServe(c, w, i, tenant, account)
    requires Commits(c, w, Releasing(target), Release) && WarmReachable(w.db, tenant, target)
    requires DosesLogged(w.log, w.db.targets, target) && Spaced(c, History(w.log, OfTarget(target)))
    ensures var steps := [Releasing(target)] + Doses(c, i, tenant, w.now, target, account);
            Legal(c, w, steps) &&
            (Spaced(c, History(Run(c, w, steps).log, OfTarget(target))) <==> !TooEarly(c, w, Releasing(target), target))
  {
    ReleasedIsDosedAgain(c, w, i, tenant, target, account);
    var h := History(w.log, OfTarget(target));
    var after := Run(c, w, [Releasing(target)] + Doses(c, i, tenant, w.now, target, account));
    var e: Event :| e.DoseEvent? && e.time == w.now && History(after.log, OfTarget(target)) == h + [e];
    SomeDose(h);
    SpacedPlusExactly(c, h, e);
  }

  lemma {:induction false} SomeDose(h: seq<Event>)
    ensures NoDose(h) <==> DoseCount(h) == 0
  {
    if h != [] {
      var n := |h| - 1;
      SomeDose(h[..n]);
      assert h == h[..n] + [h[n]];
      assert NoDose(h) <==> NoDose(h[..n]) && !h[n].DoseEvent?;
    }
  }

  /** One more dose keeps a history spaced exactly when it is the first or allowed. */
  lemma SpacedPlusExactly(c: Config, h: seq<Event>, e: Event)
    requires Spaced(c, h) && e.DoseEvent?
    ensures Spaced(c, h + [e]) <==> NoDose(h) || AllowedBy(c, h, e.time)
  {
    if NoDose(h) || AllowedBy(c, h, e.time) {
      SpacedPlus(c, h, e);
    } else {
      assert (h + [e])[|h|] == e && (h + [e])[..|h|] == h;
    }
  }

  lemma ReleaseSelects(c: Config, w: World, tenant: Uuid, target: Uuid)
    requires Commits(c, w, Releasing(target), Release) && WarmReachable(w.db, tenant, target)
    ensures var db := Next(c, w, Releasing(target)).db;
            Selectable(db, w.now, tenant, true, target) &&
            db.targets[target].attempts == w.db.targets[target].attempts &&
            db.accounts == w.db.accounts && db.accountOrder == w.db.accountOrder && db.usage == w.db.usage &&
            db.quotas == w.db.quotas && db.campaigns == w.db.campaigns
  {
  }

  lemma {:induction false} ListingUnchanged(a: Db, b: Db, order: seq<Uuid>, tenant: Uuid, date: int, now: Time)
    requires a.accounts == b.accounts && a.usage == b.usage
    ensures Listing(a, order, tenant, date, now) == Listing(b, order, tenant, date, now)
  {
    if order != [] { ListingUnchanged(a, b, order[1..], tenant, date, now); }
  }

  // ---------------------------------------------------------------- a run from freshly uploaded campaigns

  const OWNER: Uuid := 1
  const SENDER: Uuid := 2
  const TARGET: Uuid := 3
  const PHONE := Phone("9000000000")

  /** One attempt only, and every limit far away. */
  function OneAttempt(): Config {
    Config(1, 1, 10, 1, 1, 0, 0, 23, 59, 0, 1, 15, 60, {})
  }

  /** One running campaign with one target, whose chat is known, and one account. */
  function OneTarget(): World {
    World(Db(map[TARGET := Target(OWNER, OWNER, None, PHONE, "MAX", Pending, 0, None, None, None, None, None, None,
                                  None)],
             [TARGET], map[OWNER := Campaign(OWNER, Processing, false, 0, 0, true, None)],
             map[SENDER := Account(OWNER, Active, 10, None)], [SENDER], map[], map[], [], {},
             map[ChatKey(OWNER, PHONE, "MAX") := ChatMapping("chat", SENDER)], []),
          [Idle], 0, None, {}, [])
  }

  lemma CanServeTwice(c: Config, w: World, used: nat)
    requires c == OneAttempt() && |w.dosers| == 1 && w.dosers[0].Idle? && w.now == 0 && used < 10
    requires w.db.accounts == OneTarget().db.accounts && w.db.accountOrder == [SENDER]
    requires Used(w.db, SENDER, 0) == used && ((OWNER, 0) in w.db.quotas ==> w.db.quotas[(OWNER, 0)].warmUsed == 0)
    ensures CanServe(c, w, 0, OWNER, SENDER)
  {
    assert QuotaDate(c, w) == 0 && UtcDate(w.now) == 0;
    assert Listable(w.db, OWNER, 0, 0, SENDER);
  }

  /** After one dose the tables are as tight as before, but for the target's attempt. */
  lemma TargetInFlight(c: Config, w: World, db: Db)
    requires c == OneAttempt() && w == OneTarget()
    requires db == DoseDb(w, EnsureQuota(w.db, OWNER, 0, 1), TARGET, SENDER)
    ensures TARGET in db.targets && IsFaulty(c, db, TARGET, RetryPending, Release) &&
            WarmReachable(db, OWNER, TARGET) &&
            db.targets[TARGET].attempts == c.MaxAttempts() && db.accounts == w.db.accounts &&
            db.accountOrder == [SENDER] &&
            Used(db, SENDER, 0) == 1 && (OWNER, 0) in db.quotas && db.quotas[(OWNER, 0)].warmUsed == 0
  {
  }

  lemma FirstDose(c: Config, w: World) returns (steps: seq<Step>)
    requires c == OneAttempt() && w == OneTarget()
    ensures Legal(c, w, steps)
    ensures var mid := Run(c, w, steps);
            DosedOnce(w, mid, TARGET, SENDER) && mid.now == 0 && CanServe(c, mid, 0, OWNER, SENDER) &&
            Commits(c, mid, Releasing(TARGET), Release) && WarmReachable(mid.db, OWNER, TARGET) &&
            mid.db.targets[TARGET].attempts == c.MaxAttempts()
  {
    CanServeTwice(c, w, 0);
    steps := Doses(c, 0, OWNER, 0, TARGET, SENDER);
    SelectableIsDosed(c, w, 0, OWNER, TARGET, SENDER);
    assert QuotaDate(c, w) == 0;
    TargetInFlight(c, w, Run(c, w, steps).db);
    CanServeTwice(c, Run(c, w, steps), 1);
  }

  lemma NoEventsYet(target: Uuid)
    ensures History(OneTarget().log, OfTarget(target)) == []
  {
  }

  lemma FreshlyUploaded()
    ensures Initial(OneAttempt(), OneTarget())
  {
  }

  /**
   Both laws fail on a real run: with one attempt allowed, a reported retry_pending gives a target a
   second dose, directly after the first and beyond its attempts.
   */
  lemma DuplicateDoseHappens() returns (c: Config, w: World, steps: seq<Step>)
    ensures Initial(c, w) && Legal(c, w, steps)
    ensures var after := Run(c, w, steps);
            var h := History(after.log, OfTarget(TARGET));
            |h| == 2 && h[0].DoseEvent? && h[1].DoseEvent? && h[1].time < h[0].time + c.RetryDelay() &&
            TARGET in after.db.targets && after.db.targets[TARGET].attempts > c.MaxAttempts()
  {
    c, w := OneAttempt(), OneTarget();
    FreshlyUploaded();
    NoEventsYet(TARGET);
    var first := FirstDose(c, w);
    var mid := Run(c, w, first);
    var second := [Releasing(TARGET)] + Doses(c, 0, OWNER, mid.now, TARGET, SENDER);
    ReleasedIsDosedAgain(c, mid, 0, OWNER, TARGET, SENDER);
    steps := first + second;
    RunConcat(c, w, first, second);
  }
}
