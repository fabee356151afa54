/** Warm sends: the daily counter, read and incremented without a lock, overshoots by at most k - 1. */
module WarmQuota {
  import opened Domain
  import opened Settings
  import opened Tables
  import opened Protocol
  import opened Counting
  import opened Frames
  import opened Phases
  import opened DoseSpacing

  function WarmUsed(db: Db, tenant: Uuid, date: int): nat {
    if (tenant, date) in db.quotas then db.quotas[(tenant, date)].warmUsed else 0
  }

  // ---------------------------------------------------------------- the counter

  /** Counted sends plus the dosers that may still count one. */
  predicate WarmBounded(c: Config, w: World, tenant: Uuid, date: int) {
    var n := WarmUsed(w.db, tenant, date) + CountHolding(c, w.dosers, WarmPermit(tenant, date));
    n > 0 ==> n <= c.limitWarmDaily + |w.dosers| - 1
  }

  lemma DoserWarmUsed(c: Config, w: World, p: Phase, d: DoserStep, tenant: Uuid, date: int)
    requires DoserEnabled(c, w, p, d) && QuotaSane(c, w.db, p)
    ensures WarmUsed(DoserDb(c, w, p, d), tenant, date) ==
            WarmUsed(w.db, tenant, date) + if d.CountWarm? && Holds(c, p, WarmDebt(tenant, date)) then 1 else 0
  {
    if !d.EnsureQuotaRow? && !d.ReserveSlot? && !d.CountWarm? {
      DoserKeepsQuotas(c, w, p, d);
    }
  }

  /** A permit is obtained only by reading a quota row that still has room. */
  lemma NewPermit(c: Config, w: World, p: Phase, d: DoserStep, tenant: Uuid, date: int)
    requires DoserEnabled(c, w, p, d)
    ensures Holds(c, DoserPhase(c, w, p, d), WarmPermit(tenant, date)) && !Holds(c, p, WarmPermit(tenant, date)) ==>
            WarmUsed(w.db, tenant, date) < c.limitWarmDaily && !d.CountWarm?
    ensures d.CountWarm? ==> !Holds(c, DoserPhase(c, w, p, d), WarmPermit(tenant, date)) &&
                             (Holds(c, p, WarmPermit(tenant, date)) <==> Holds(c, p, WarmDebt(tenant, date)))
  {
  }

  lemma DoserKeepsWarmBound(c: Config, w: World, i: nat, d: DoserStep, tenant: Uuid, date: int)
    requires i < |w.dosers| && DoserEnabled(c, w, w.dosers[i], d) && QuotaSane(c, w.db, w.dosers[i])
    requires WarmBounded(c, w, tenant, date)
    ensures WarmBounded(c, DoserNext(c, w, i, d), tenant, date)
  {
    var p, k := w.dosers[i], WarmPermit(tenant, date);
    DoserWarmUsed(c, w, p, d, tenant, date);
    NewPermit(c, w, p, d, tenant, date);
    CountHoldingUpdate(c, w.dosers, i, DoserPhase(c, w, p, d), k);
    if !Holds(c, p, k) {
      CountHoldingBelow(c, w.dosers, i, k);
    }
  }

  lemma StepKeepsWarmBound(c: Config, w: World, s: Step, tenant: Uuid, date: int)
    requires Enabled(c, w, s) && AllSane(c, w) && WarmBounded(c, w, tenant, date)
    ensures WarmBounded(c, Next(c, w, s), tenant, date)
  {
    match s
    case Doser(i, d) => DoserKeepsWarmBound(c, w, i, d, tenant, date);
    case Elsewhere(o) => OtherFrame(c, w, o);
  }

  // ---------------------------------------------------------------- the rows

  /** Warm rows are counted, about to be counted, or their count was lost to an error. */
  predicate WarmRowsCounted(c: Config, w: World, tenant: Uuid, date: int) {
    CountRows(c, w.db.outbox, ForContact(tenant, date, "warm")) <=
    WarmUsed(w.db, tenant, date) + CountHolding(c, w.dosers, WarmDebt(tenant, date)) +
    |History(w.log, OfLostWarm(tenant, date))|
  }

  lemma DoserWarmRows(c: Config, w: World, p: Phase, d: DoserStep, tenant: Uuid, date: int)
    requires DoserEnabled(c, w, p, d) && ChoiceSane(c, w.db, p)
    ensures CountRows(c, DoserDb(c, w, p, d).outbox, ForContact(tenant, date, "warm")) <=
            CountRows(c, w.db.outbox, ForContact(tenant, date, "warm")) +
            if Holds(c, DoserPhase(c, w, p, d), WarmDebt(tenant, date)) then 1 else 0
  {
    if d.ClaimTarget? {
      if ClaimOf(w, p) == Dosed {
        CountRowsAppend(c, w.db.outbox,
                        OutboxRow(EventFor(p.view, p.SlotHeld?), BuildTask(p.view, p.account, p.SlotHeld?),
                                  p.view.tenantId, p.account, p.tick.at, false),
                        ForContact(tenant, date, "warm"));
        assert "warm"[0] != "cold"[0];
      }
    } else {
      DoserKeepsRows(c, w, p, d);
    }
  }

  lemma DoserLostWarm(c: Config, w: World, p: Phase, d: DoserStep, tenant: Uuid, date: int)
    requires DoserEnabled(c, w, p, d)
    ensures |History(w.log + DoserEvents(c, w, p, d), OfLostWarm(tenant, date))| ==
            |History(w.log, OfLostWarm(tenant, date))| +
            if d.GiveUp? && Holds(c, p, WarmDebt(tenant, date)) then 1 else 0
  {
    var es := DoserEvents(c, w, p, d);
    if |es| == 1 {
      HistoryAppend(w.log, es[0], OfLostWarm(tenant, date));
      assert es == [es[0]];
    } else {
      HistoryAppendNone(w.log, es, OfLostWarm(tenant, date));
    }
  }

  /** A warm debt ends only by being counted or lost, and starts only with a claim. */
  lemma DebtChanges(c: Config, w: World, p: Phase, d: DoserStep, tenant: Uuid, date: int)
    requires DoserEnabled(c, w, p, d)
    ensures Holds(c, DoserPhase(c, w, p, d), WarmDebt(tenant, date)) ==>
            d.ClaimTarget? && !Holds(c, p, WarmDebt(tenant, date))
    ensures Holds(c, p, WarmDebt(tenant, date)) ==> d.CountWarm? || d.GiveUp?
  {
  }

  lemma DoserKeepsWarmRows(c: Config, w: World, i: nat, d: DoserStep, tenant: Uuid, date: int)
    requires i < |w.dosers| && DoserEnabled(c, w, w.dosers[i], d)
    requires QuotaSane(c, w.db, w.dosers[i]) && ChoiceSane(c, w.db, w.dosers[i])
    requires WarmRowsCounted(c, w, tenant, date)
    ensures WarmRowsCounted(c, DoserNext(c, w, i, d), tenant, date)
  {
    var p := w.dosers[i];
    DoserWarmUsed(c, w, p, d, tenant, date);
    DoserWarmRows(c, w, p, d, tenant, date);
    DoserLostWarm(c, w, p, d, tenant, date);
    DebtChanges(c, w, p, d, tenant, date);
    CountHoldingUpdate(c, w.dosers, i, DoserPhase(c, w, p, d), WarmDebt(tenant, date));
  }

  lemma StepKeepsWarmRows(c: Config, w: World, s: Step, tenant: Uuid, date: int)
    requires Enabled(c, w, s) && AllSane(c, w) && WarmRowsCounted(c, w, tenant, date)
    ensures WarmRowsCounted(c, Next(c, w, s), tenant, date)
  {
    match s
    case Doser(i, d) => DoserKeepsWarmRows(c, w, i, d, tenant, date);
    case Elsewhere(o) => OtherKeepsWarmRows(c, w, o, tenant, date);
  }

  lemma OtherKeepsWarmRows(c: Config, w: World, o: OtherStep, tenant: Uuid, date: int)
    requires OtherEnabled(c, w, o) && WarmRowsCounted(c, w, tenant, date)
    ensures WarmRowsCounted(c, OtherNext(c, w, o), tenant, date)
  {
    OtherFrame(c, w, o);
    CountRowsMarked(c, w.db.outbox, OtherDb(c, w, o).outbox, ForContact(tenant, date, "warm"));
    OthersLogNothing(c, w, o, OfLostWarm(tenant, date));
  }

  lemma {:induction false} WarmAlong(c: Config, w: World, steps: seq<Step>, tenant: Uuid, date: int)
    requires Legal(c, w, steps) && AllSane(c, w) && WarmBounded(c, w, tenant, date) &&
             WarmRowsCounted(c, w, tenant, date)
    ensures WarmBounded(c, Run(c, w, steps), tenant, date) && WarmRowsCounted(c, Run(c, w, steps), tenant, date)
    ensures |Run(c, w, steps).dosers| == |w.dosers|
    decreases |steps|
  {
    if steps != [] {
      StepKeepsSane(c, w, steps[0]);
      StepKeepsWarmBound(c, w, steps[0], tenant, date);
      StepKeepsWarmRows(c, w, steps[0], tenant, date);
      WarmAlong(c, Next(c, w, steps[0]), steps[1..], tenant, date);
    }
  }

  /**
   With k dosers, warm_used exceeds the daily limit by at most k - 1 (so never for one doser),
   although it is also incremented when the claim found the target gone; and the warm rows of
   the day exceed it by at most the increments still owed or lost to errors.
   */
  lemma WarmQuotaBound(c: Config, w: World, steps: seq<Step>, tenant: Uuid, date: int)
    requires Initial(c, w) && Legal(c, w, steps)
    ensures var after := Run(c, w, steps);
            (WarmUsed(after.db, tenant, date) > 0 ==>
               WarmUsed(after.db, tenant, date) <= c.limitWarmDaily + |w.dosers| - 1) &&
            CountRows(c, after.db.outbox, ForContact(tenant, date, "warm")) <=
            WarmUsed(after.db, tenant, date) + CountHolding(c, after.dosers, WarmDebt(tenant, date)) +
            |History(after.log, OfLostWarm(tenant, date))|
  {
    CountHoldingNone(c, w.dosers, WarmPermit(tenant, date));
    CountHoldingNone(c, w.dosers, WarmDebt(tenant, date));
    InitiallySane(c, w);
    WarmAlong(c, w, steps, tenant, date);
  }
}
