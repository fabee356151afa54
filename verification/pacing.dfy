/** Cold sends: the daily limit, the spacing of reservations and the rows they pay for. */
module ColdPacing {
  import opened Domain
  import opened Settings
  import opened Tables
  import opened Protocol
  import opened Counting
  import opened Frames
  import opened Phases
  import opened DoseSpacing

  // ---------------------------------------------------------------- reservations

  /** Reservations of one local date lie in its work window, each MinSpacing after the previous. */
  predicate SlotsPaced(c: Config, date: int, h: seq<Event>) {
    forall j :: 0 <= j < |h| ==>
      h[j].SlotEvent? && c.LocalDate(h[j].at) == date && c.IsWithinWorkWindow(h[j].at) &&
      (j > 0 ==> h[j - 1].SlotEvent? && h[j].at >= h[j - 1].at + c.MinSpacing())
  }

  /** The quota row, its limit drawn once, counts the reservations and remembers the last one. */
  predicate CountsSlots(c: Config, quotas: map<(Uuid, int), Quota>, key: (Uuid, int), h: seq<Event>) {
    if key in quotas then
      var q := quotas[key];
      q.coldUsed == |h| && c.IsColdLimit(q.coldLimit) &&
      if h == [] then q.lastColdPublishAt.None?
      else h[|h| - 1].SlotEvent? && q.lastColdPublishAt == Some(h[|h| - 1].at) && q.coldUsed <= q.coldLimit
    else h == []
  }

  predicate SlotsSane(c: Config, quotas: map<(Uuid, int), Quota>, tenant: Uuid, date: int, h: seq<Event>) {
    SlotsPaced(c, date, h) && CountsSlots(c, quotas, (tenant, date), h)
  }

  lemma ColdIntervalSpacing(c: Config, d: Time)
    requires c.IsColdInterval(d)
    ensures (if d / SECOND < 0 then 0 else d / SECOND * SECOND) >= c.MinSpacing()
  {
    var minutes :| c.coldMinMinutes <= minutes && d == minutes * MINUTE;
    assert d == minutes * 60 * SECOND;
    assert d / SECOND == minutes * 60;
  }

  lemma ReservationPaced(c: Config, w: World, p: Phase, tenant: Uuid, date: int, h: seq<Event>)
    requires DoserEnabled(c, w, p, ReserveSlot) && ChoiceSane(c, w.db, p)
    requires SlotAvailable(w.db, p.tick.tenant, c.LocalDate(p.tick.at), p.tick.at, p.interval)
    requires p.tick.tenant == tenant && c.LocalDate(p.tick.at) == date
    requires SlotsSane(c, w.db.quotas, tenant, date, h)
    ensures SlotsSane(c, DoserDb(c, w, p, ReserveSlot).quotas, tenant, date, h + [SlotEvent(tenant, date, p.tick.at)])
  {
    ColdIntervalSpacing(c, p.interval);
    var g := h + [SlotEvent(tenant, date, p.tick.at)];
    if h != [] {
      assert g[|h|].at >= h[|h| - 1].at + c.MinSpacing();
    }
  }

  lemma DoserSlotHistory(c: Config, w: World, p: Phase, d: DoserStep, tenant: Uuid, date: int)
    requires DoserEnabled(c, w, p, d)
    ensures History(w.log + DoserEvents(c, w, p, d), OfSlots(tenant, date)) ==
            History(w.log, OfSlots(tenant, date)) +
            if d.ReserveSlot? && SlotAvailable(w.db, p.tick.tenant, c.LocalDate(p.tick.at), p.tick.at, p.interval) &&
               p.tick.tenant == tenant && c.LocalDate(p.tick.at) == date
            then [SlotEvent(tenant, date, p.tick.at)] else []
  {
    var es := DoserEvents(c, w, p, d);
    if |es| == 1 {
      HistoryAppend(w.log, es[0], OfSlots(tenant, date));
      assert es == [es[0]];
    } else {
      HistoryAppendNone(w.log, es, OfSlots(tenant, date));
    }
  }

  lemma DoserKeepsSlots(c: Config, w: World, p: Phase, d: DoserStep, tenant: Uuid, date: int, h: seq<Event>)
    requires DoserEnabled(c, w, p, d) && ChoiceSane(c, w.db, p)
    requires SlotsSane(c, w.db.quotas, tenant, date, h)
    ensures SlotsSane(c, DoserDb(c, w, p, d).quotas, tenant, date,
                      h + if d.ReserveSlot? &&
                      SlotAvailable(w.db, p.tick.tenant, c.LocalDate(p.tick.at), p.tick.at, p.interval) &&
                             p.tick.tenant == tenant && c.LocalDate(p.tick.at) == date
                          then [SlotEvent(tenant, date, p.tick.at)] else [])
  {
    assert h + [] == h;
    if d.ReserveSlot? {
      if SlotAvailable(w.db, p.tick.tenant, c.LocalDate(p.tick.at), p.tick.at, p.interval) &&
         p.tick.tenant == tenant && c.LocalDate(p.tick.at) == date
      {
        ReservationPaced(c, w, p, tenant, date, h);
      }
    } else if !d.EnsureQuotaRow? && !d.CountWarm? {
      DoserKeepsQuotas(c, w, p, d);
    }
  }

  ghost predicate SlotsInv(c: Config, w: World) {
    AllSane(c, w) &&
    forall tenant, date :: SlotsSane(c, w.db.quotas, tenant, date, History(w.log, OfSlots(tenant, date)))
  }

  lemma StepKeepsSlots(c: Config, w: World, s: Step)
    requires Enabled(c, w, s) && SlotsInv(c, w)
    ensures SlotsInv(c, Next(c, w, s))
  {
    StepKeepsSane(c, w, s);
    forall tenant, date
      ensures SlotsSane(c, Next(c, w, s).db.quotas, tenant, date, History(Next(c, w, s).log, OfSlots(tenant, date)))
    {
      match s
      case Doser(i, d) => DoserStepKeepsSlots(c, w, i, d, tenant, date);
      case Elsewhere(o) => OtherStepKeepsSlots(c, w, o, tenant, date);
    }
  }

  lemma DoserStepKeepsSlots(c: Config, w: World, i: nat, d: DoserStep, tenant: Uuid, date: int)
    requires i < |w.dosers| && DoserEnabled(c, w, w.dosers[i], d) && SlotsInv(c, w)
    ensures var next := DoserNext(c, w, i, d);
            SlotsSane(c, next.db.quotas, tenant, date, History(next.log, OfSlots(tenant, date)))
  {
    DoserKeepsSlots(c, w, w.dosers[i], d, tenant, date, History(w.log, OfSlots(tenant, date)));
    DoserSlotHistory(c, w, w.dosers[i], d, tenant, date);
  }

  lemma OtherStepKeepsSlots(c: Config, w: World, o: OtherStep, tenant: Uuid, date: int)
    requires OtherEnabled(c, w, o) && SlotsInv(c, w)
    ensures var next := OtherNext(c, w, o);
            SlotsSane(c, next.db.quotas, tenant, date, History(next.log, OfSlots(tenant, date)))
  {
    OtherFrame(c, w, o);
    OthersLogNothing(c, w, o, OfSlots(tenant, date));
  }

  lemma InitiallySlotted(c: Config, w: World)
    requires Initial(c, w)
    ensures SlotsInv(c, w)
  {
    InitiallySane(c, w);
  }

  lemma {:induction false} SlotsAlong(c: Config, w: World, steps: seq<Step>)
    requires Legal(c, w, steps) && SlotsInv(c, w)
    ensures SlotsInv(c, Run(c, w, steps))
    decreases |steps|
  {
    if steps != [] {
      StepKeepsSlots(c, w, steps[0]);
      SlotsAlong(c, Next(c, w, steps[0]), steps[1..]);
    }
  }

  lemma {:induction false} SlotsSpread(c: Config, date: int, h: seq<Event>, j: nat)
    requires SlotsPaced(c, date, h) && j < |h|
    ensures h[j].at >= h[0].at + j * c.MinSpacing()
  {
    if j > 0 {
      SlotsSpread(c, date, h, j - 1);
      TimesStep(j, c.MinSpacing());
    }
  }

  lemma SlotsFitWindow(c: Config, date: int, h: seq<Event>)
    requires SlotsPaced(c, date, h) && h != []
    ensures (|h| - 1) * c.MinSpacing() < c.WindowEnd() - c.WindowStart()
  {
    SlotsSpread(c, date, h, |h| - 1);
    var first, last := h[0], h[|h| - 1];
    assert c.DayStart(first.at) == c.DayStart(last.at);
  }

  lemma TimesMonotone(a: int, b: int, s: int)
    requires a <= b && 0 <= s
    ensures a * s <= b * s
  {
  }

  lemma DivFloor(x: int, s: int)
    requires s > 0
    ensures x < (x / s) * s + s
  {
  }

  lemma CeilBound(n: nat, step: Time, width: Time)
    requires step > 0 && (n - 1) * step < width
    ensures n <= (width + step - 1) / step
  {
    var q := (width + step - 1) / step;
    DivFloor(width + step - 1, step);
    if n > q {
      TimesMonotone(q, n - 1, step);
    }
  }

  /** What pacing means for the number of reservations of one local date. */
  predicate FitsWindow(c: Config, used: nat) {
    used > 0 ==>
      var width := c.WindowEnd() - c.WindowStart();
      (used - 1) * c.MinSpacing() < width &&
      (c.MinSpacing() > 0 ==> used <= (width + c.MinSpacing() - 1) / c.MinSpacing())
  }

  lemma PacedFits(c: Config, date: int, h: seq<Event>)
    requires SlotsPaced(c, date, h)
    ensures FitsWindow(c, |h|)
  {
    if h != [] {
      SlotsFitWindow(c, date, h);
      if c.MinSpacing() > 0 {
        CeilBound(|h|, c.MinSpacing(), c.WindowEnd() - c.WindowStart());
      }
    }
  }

  /**
   Cold pacing: in every reachable state and for every tenant and local date, cold_used counts
   reservations that lie in the work window and are MinSpacing apart; it never exceeds the
   drawn limit nor the number of such instants the window can hold.
   */
  lemma ColdPacingBound(c: Config, w: World, steps: seq<Step>, tenant: Uuid, date: int)
    requires Initial(c, w) && Legal(c, w, steps) && (tenant, date) in Run(c, w, steps).db.quotas
    ensures var after := Run(c, w, steps);
            var q, h := after.db.quotas[(tenant, date)], History(after.log, OfSlots(tenant, date));
            SlotsPaced(c, date, h) && q.coldUsed == |h| && FitsWindow(c, q.coldUsed) &&
            c.IsColdLimit(q.coldLimit) && (q.coldUsed > 0 ==> q.coldUsed <= q.coldLimit)
  {
    InitiallySlotted(c, w);
    SlotsAlong(c, w, steps);
    var after := Run(c, w, steps);
    var h := History(after.log, OfSlots(tenant, date));
    assert SlotsSane(c, after.db.quotas, tenant, date, h);
    PacedFits(c, date, h);
  }

  /** On that local date and inside the configured window, by the local clock. */
  predicate InWindowByClock(c: Config, at: Time, date: int) {
    var clock := at + c.utcOffset - date * 86_400_000_000;
    0 <= clock < 86_400_000_000 &&
    c.windowStartHour * 3_600_000_000 + c.windowStartMinute * 60_000_000 <= clock &&
    clock < c.windowEndHour * 3_600_000_000 + c.windowEndMinute * 60_000_000
  }

  lemma WindowIsByClock(c: Config, at: Time, date: int)
    requires c.LocalDate(at) == date && c.IsWithinWorkWindow(at)
    ensures InWindowByClock(c, at, date)
  {
    WorkWindowByClock(c, at);
    DatesByClock(c, at, date);
  }

  /** In the window by the clock, each at least so many minutes after the previous one. */
  predicate PacedByClock(c: Config, date: int, h: seq<Event>) {
    forall j :: 0 <= j < |h| ==>
      h[j].SlotEvent? && InWindowByClock(c, h[j].at, date) &&
      (j > 0 ==> h[j - 1].SlotEvent? && h[j].at >= h[j - 1].at + c.coldMinMinutes * 60_000_000)
  }

  lemma PacingIsByClock(c: Config, date: int, h: seq<Event>)
    requires SlotsPaced(c, date, h)
    ensures PacedByClock(c, date, h)
  {
    forall j | 0 <= j < |h| ensures h[j].SlotEvent? && InWindowByClock(c, h[j].at, date) {
      WindowIsByClock(c, h[j].at, date);
    }
    assert c.MinSpacing() >= c.coldMinMinutes * 60_000_000;
  }

  /**
   The same by the clock and the configuration: every reservation is taken while the local clock is inside the window,
   each at least the least configured number of minutes after the previous, and the limit was drawn between the two
   configured ones.
   */
  lemma ColdPacingByClock(c: Config, w: World, steps: seq<Step>, tenant: Uuid, date: int)
    requires Initial(c, w) && Legal(c, w, steps) && (tenant, date) in Run(c, w, steps).db.quotas
    ensures var after := Run(c, w, steps);
            var q := after.db.quotas[(tenant, date)];
            c.limitColdMin <= q.coldLimit && (q.coldLimit == c.limitColdMin || q.coldLimit <= c.limitColdMax) &&
            PacedByClock(c, date, History(after.log, OfSlots(tenant, date)))
  {
    ColdPacingBound(c, w, steps, tenant, date);
    PacingIsByClock(c, date, History(Run(c, w, steps).log, OfSlots(tenant, date)));
  }

  // ---------------------------------------------------------------- rows paid for by reservations

  /** Every cold row, and every doser about to write one, has its own reservation. */
  predicate SlotsCoverRows(c: Config, w: World, tenant: Uuid, date: int) {
    CountRows(c, w.db.outbox, ForContact(tenant, date, "cold")) + CountHolding(c, w.dosers, ColdSlot(tenant, date)) <=
    |History(w.log, OfSlots(tenant, date))|
  }

  lemma DoserColdRows(c: Config, w: World, p: Phase, d: DoserStep, tenant: Uuid, date: int)
    requires DoserEnabled(c, w, p, d) && ChoiceSane(c, w.db, p)
    ensures CountRows(c, DoserDb(c, w, p, d).outbox, ForContact(tenant, date, "cold")) <=
            CountRows(c, w.db.outbox, ForContact(tenant, date, "cold")) +
            if d.ClaimTarget? && Holds(c, p, ColdSlot(tenant, date)) then 1 else 0
  {
    if d.ClaimTarget? {
      if ClaimOf(w, p) == Dosed {
        CountRowsAppend(c, w.db.outbox,
                        OutboxRow(EventFor(p.view, p.SlotHeld?), BuildTask(p.view, p.account, p.SlotHeld?),
                                  p.view.tenantId, p.account, p.tick.at, false),
                        ForContact(tenant, date, "cold"));
        assert "warm"[0] != "cold"[0];
      }
    } else {
      DoserKeepsRows(c, w, p, d);
    }
  }

  lemma DoserCoversRows(c: Config, w: World, i: nat, d: DoserStep, tenant: Uuid, date: int)
    requires i < |w.dosers| && DoserEnabled(c, w, w.dosers[i], d) && ChoiceSane(c, w.db, w.dosers[i])
    requires SlotsCoverRows(c, w, tenant, date)
    ensures SlotsCoverRows(c, DoserNext(c, w, i, d), tenant, date)
  {
    var p := w.dosers[i];
    DoserColdRows(c, w, p, d, tenant, date);
    DoserSlotHistory(c, w, p, d, tenant, date);
    CountHoldingUpdate(c, w.dosers, i, DoserPhase(c, w, p, d), ColdSlot(tenant, date));
    NewlyHeldSlot(c, w, p, d, tenant, date);
  }

  lemma NewlyHeldSlot(c: Config, w: World, p: Phase, d: DoserStep, tenant: Uuid, date: int)
    requires DoserEnabled(c, w, p, d)
    ensures Holds(c, DoserPhase(c, w, p, d), ColdSlot(tenant, date)) <==>
            d.ReserveSlot? && SlotAvailable(w.db, p.tick.tenant, c.LocalDate(p.tick.at), p.tick.at, p.interval) &&
            p.tick.tenant == tenant && c.LocalDate(p.tick.at) == date
  {
  }

  lemma StepCoversRows(c: Config, w: World, s: Step, tenant: Uuid, date: int)
    requires Enabled(c, w, s) && AllSane(c, w) && SlotsCoverRows(c, w, tenant, date)
    ensures SlotsCoverRows(c, Next(c, w, s), tenant, date)
  {
    match s
    case Doser(i, d) => DoserCoversRows(c, w, i, d, tenant, date);
    case Elsewhere(o) => OtherCoversRows(c, w, o, tenant, date);
  }

  lemma OtherCoversRows(c: Config, w: World, o: OtherStep, tenant: Uuid, date: int)
    requires OtherEnabled(c, w, o) && SlotsCoverRows(c, w, tenant, date)
    ensures SlotsCoverRows(c, OtherNext(c, w, o), tenant, date)
  {
    OtherFrame(c, w, o);
    CountRowsMarked(c, w.db.outbox, OtherDb(c, w, o).outbox, ForContact(tenant, date, "cold"));
    OthersLogNothing(c, w, o, OfSlots(tenant, date));
  }

  lemma {:induction false} CoveredAlong(c: Config, w: World, steps: seq<Step>, tenant: Uuid, date: int)
    requires Legal(c, w, steps) && AllSane(c, w) && SlotsCoverRows(c, w, tenant, date)
    ensures SlotsCoverRows(c, Run(c, w, steps), tenant, date)
    decreases |steps|
  {
    if steps != [] {
      StepKeepsSane(c, w, steps[0]);
      StepCoversRows(c, w, steps[0], tenant, date);
      CoveredAlong(c, Next(c, w, steps[0]), steps[1..], tenant, date);
    }
  }

  /** Cold outbox rows of a tenant and local date never outnumber cold_used, even when claims fail. */
  lemma ColdRowsWithinQuota(c: Config, w: World, steps: seq<Step>, tenant: Uuid, date: int)
    requires Initial(c, w) && Legal(c, w, steps)
    ensures var db := Run(c, w, steps).db;
            CountRows(c, db.outbox, ForContact(tenant, date, "cold")) <=
            if (tenant, date) in db.quotas then db.quotas[(tenant, date)].coldUsed else 0
  {
    CountHoldingNone(c, w.dosers, ColdSlot(tenant, date));
    InitiallySlotted(c, w);
    CoveredAlong(c, w, steps, tenant, date);
    SlotsAlong(c, w, steps);
    assert SlotsSane(c, Run(c, w, steps).db.quotas, tenant, date, History(Run(c, w, steps).log, OfSlots(tenant, date)));
  }

  // ---------------------------------------------------------------- quota rows last

  predicate QuotaGrows(a: map<(Uuid, int), Quota>, b: map<(Uuid, int), Quota>) {
    forall k :: k in a ==>
      k in b && b[k].coldLimit == a[k].coldLimit && b[k].coldUsed >= a[k].coldUsed && b[k].warmUsed >= a[k].warmUsed
  }

  lemma StepGrowsQuota(c: Config, w: World, s: Step)
    requires Enabled(c, w, s)
    ensures QuotaGrows(w.db.quotas, Next(c, w, s).db.quotas)
  {
    match s
    case Doser(i, d) => DoserGrowsQuota(c, w, w.dosers[i], d);
    case Elsewhere(o) => OtherFrame(c, w, o);
  }

  lemma DoserGrowsQuota(c: Config, w: World, p: Phase, d: DoserStep)
    requires DoserEnabled(c, w, p, d)
    ensures QuotaGrows(w.db.quotas, DoserDb(c, w, p, d).quotas)
  {
  }

  /**
   A day's quota row, once there, is the row every later call loads: its limit is never drawn again
   and its counters never fall.
   */
  lemma {:induction false} QuotaRowLasts(c: Config, w: World, steps: seq<Step>)
    requires Legal(c, w, steps)
    ensures QuotaGrows(w.db.quotas, Run(c, w, steps).db.quotas)
    decreases |steps|
  {
    if steps != [] {
      StepGrowsQuota(c, w, steps[0]);
      QuotaRowLasts(c, Next(c, w, steps[0]), steps[1..]);
    }
  }
}
