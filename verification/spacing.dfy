/** Two doses of one target are always separated by a retry decision and its delay. */
module DoseSpacing {
  import opened Domain
  import opened Settings
  import opened Tables
  import opened Protocol
  import opened Counting
  import opened Frames
  import opened Conservation
  import opened Lifecycle
  import opened Faults

  /** The retry decision that ends h allows a dose at time t. */
  predicate AllowedBy(c: Config, h: seq<Event>, t: Time) {
    h != [] && h[|h| - 1].RetryEvent? && t >= h[|h| - 1].readAt + c.RetryDelay()
  }

  predicate NoDose(h: seq<Event>) {
    forall i :: 0 <= i < |h| ==> !h[i].DoseEvent?
  }

  /** Every dose after an earlier one directly follows a retry decision made at least RetryDelay before. */
  predicate Spaced(c: Config, h: seq<Event>) {
    forall j :: 0 <= j < |h| && h[j].DoseEvent? ==> NoDose(h[..j]) || AllowedBy(c, h[..j], h[j].time)
  }

  /**
   A dosed target's next attempt time, where it has one, comes from the retry decision that ends its
   history; where it waits for a further attempt without a time, that decision allows a dose already.
   */
  predicate Continues(c: Config, now: Time, t: Target, h: seq<Event>) {
    if t.attempts == 0 then NoDose(h)
    else if t.nextAttemptAt.Some? then AllowedBy(c, h, t.nextAttemptAt.value) || AllowedBy(c, h, now)
    else t.status == RetryPending ==> AllowedBy(c, h, now)
  }

  predicate Resumes(c: Config, now: Time, targets: map<Uuid, Target>, h: seq<Event>, t: Uuid) {
    t in targets && Spaced(c, h) && Continues(c, now, targets[t], h)
  }

  /** What keeps the doses of target t apart in w. */
  predicate KeptApart(c: Config, w: World, t: Uuid) {
    Resumes(c, w.now, w.db.targets, History(w.log, OfTarget(t)), t)
  }

  /**
   The report that breaks it: one that releases the target although no retry decision ends its history
   or RetryDelay has not passed since that decision.
   */
  predicate ReleasesEarly(c: Config, db: Db, now: Time, call: RepoCall, t: Uuid, h: seq<Event>) {
    CallCommits(c, db, call, Release) && call.target == t && !AllowedBy(c, h, now)
  }

  predicate TooEarly(c: Config, w: World, s: Step, t: Uuid) {
    s.Elsewhere? && s.o.Report? && ReleasesEarly(c, w.db, w.now, s.o.call, t, History(w.log, OfTarget(t)))
  }

  lemma HistoryAppendNone(log: seq<Event>, e: seq<Event>, k: Topic)
    requires |e| <= 2 && forall i :: 0 <= i < |e| ==> !About(e[i], k)
    ensures History(log + e, k) == History(log, k)
  {
    if |e| == 0 {
      assert log + e == log;
    } else if |e| == 1 {
      assert e == [e[0]];
      HistoryAppend(log, e[0], k);
    } else {
      assert log + e == (log + [e[0]]) + [e[1]];
      HistoryAppend(log, e[0], k);
      HistoryAppend(log + [e[0]], e[1], k);
    }
  }

  /** Only dosers reserve slots and lose warm counts. */
  lemma OthersLogNothing(c: Config, w: World, o: OtherStep, k: Topic)
    requires OtherEnabled(c, w, o) && (k.OfSlots? || k.OfLostWarm?)
    ensures History(w.log + OtherEvents(c, w, o), k) == History(w.log, k)
  {
    HistoryAppendNone(w.log, OtherEvents(c, w, o), k);
  }

  lemma DoserHistory(c: Config, w: World, p: Phase, d: DoserStep, t: Uuid)
    requires DoserEnabled(c, w, p, d)
    ensures History(w.log + DoserEvents(c, w, p, d), OfTarget(t)) ==
            History(w.log, OfTarget(t)) +
            if d.ClaimTarget? && ClaimOf(w, p) == Dosed && p.view.targetId == t
            then [DoseEvent(t, p.view.campaignId, p.account, w.now, p.tick.at, p.tick.mark)] else []
  {
    if d.ClaimTarget? && ClaimOf(w, p) == Dosed && p.view.targetId == t {
      HistoryAppend(w.log, DoseEvent(t, p.view.campaignId, p.account, w.now, p.tick.at, p.tick.mark), OfTarget(t));
    } else {
      HistoryAppendNone(w.log, DoserEvents(c, w, p, d), OfTarget(t));
    }
  }

  lemma CoolingHistory(c: Config, db: Db, f: Failure, log: seq<Event>, t: Uuid)
    ensures History(log + CoolEvents(c, db, f), OfTarget(t)) == History(log, OfTarget(t))
  {
    HistoryAppendNone(log, CoolEvents(c, db, f), OfTarget(t));
  }

  lemma OutcomeHistory(c: Config, db: Db, f: Failure, log: seq<Event>, t: Uuid)
    ensures History(log + OutcomeEvents(c, db, f), OfTarget(t)) ==
            History(log, OfTarget(t)) +
            if f.target == t && FailureOutcomeOf(db, t, c.maxRetryAttempts) == Rescheduled
            then [RetryEvent(t, f.readAt)] else []
  {
    if f.target == t && FailureOutcomeOf(db, t, c.maxRetryAttempts) == Rescheduled {
      HistoryAppend(log, RetryEvent(t, f.readAt), OfTarget(t));
    } else {
      HistoryAppendNone(log, OutcomeEvents(c, db, f), OfTarget(t));
    }
  }

  lemma FailureHistory(c: Config, db: Db, f: Failure, log: seq<Event>, t: Uuid)
    ensures History(log + FailureEvents(c, db, f), OfTarget(t)) ==
            History(log, OfTarget(t)) +
            if f.target == t && FailureOutcomeOf(db, t, c.maxRetryAttempts) == Rescheduled
            then [RetryEvent(t, f.readAt)] else []
  {
    CoolingHistory(c, db, f, log, t);
    OutcomeHistory(c, db, f, log + CoolEvents(c, db, f), t);
    assert log + (CoolEvents(c, db, f) + OutcomeEvents(c, db, f)) ==
           (log + CoolEvents(c, db, f)) + OutcomeEvents(c, db, f);
  }

  lemma ClaimContinues(c: Config, w: World, p: Phase, t: Uuid, h: seq<Event>)
    requires DoserEnabled(c, w, p, ClaimTarget) && Resumes(c, w.now, w.db.targets, h, t)
    requires ClaimOf(w, p) == Dosed && p.view.targetId == t
    ensures Resumes(c, w.now, DoserDb(c, w, p, ClaimTarget).targets,
                    h + [DoseEvent(t, p.view.campaignId, p.account, w.now, p.tick.at, p.tick.mark)], t)
  {
    SpacedPlus(c, h, DoseEvent(t, p.view.campaignId, p.account, w.now, p.tick.at, p.tick.mark));
  }

  lemma OtherCallContinues(c: Config, w: World, p: Phase, d: DoserStep, t: Uuid, h: seq<Event>)
    requires DoserEnabled(c, w, p, d) && Resumes(c, w.now, w.db.targets, h, t)
    requires !(d.ClaimTarget? && ClaimOf(w, p) == Dosed && p.view.targetId == t)
    ensures Resumes(c, w.now, DoserDb(c, w, p, d).targets, h, t)
  {
  }

  lemma DoserContinues(c: Config, w: World, p: Phase, d: DoserStep, t: Uuid, h: seq<Event>)
    requires DoserEnabled(c, w, p, d) && Resumes(c, w.now, w.db.targets, h, t)
    ensures Resumes(c, w.now, DoserDb(c, w, p, d).targets,
                    h + if d.ClaimTarget? && ClaimOf(w, p) == Dosed && p.view.targetId == t
                        then [DoseEvent(t, p.view.campaignId, p.account, w.now, p.tick.at, p.tick.mark)] else [], t)
  {
    if d.ClaimTarget? && ClaimOf(w, p) == Dosed && p.view.targetId == t {
      ClaimContinues(c, w, p, t, h);
    } else {
      OtherCallContinues(c, w, p, d, t, h);
      assert h + [] == h;
    }
  }

  lemma DoserKeepsSpacing(c: Config, w: World, p: Phase, d: DoserStep, t: Uuid)
    requires DoserEnabled(c, w, p, d) && Resumes(c, w.now, w.db.targets, History(w.log, OfTarget(t)), t)
    ensures Resumes(c, w.now, DoserDb(c, w, p, d).targets, History(w.log + DoserEvents(c, w, p, d), OfTarget(t)), t)
  {
    DoserHistory(c, w, p, d, t);
    DoserContinues(c, w, p, d, t, History(w.log, OfTarget(t)));
  }

  /** One more event: a dose must be allowed, a retry decision always may come. */
  lemma SpacedPlus(c: Config, h: seq<Event>, e: Event)
    requires Spaced(c, h)
    requires e.RetryEvent? || (e.DoseEvent? && (NoDose(h) || AllowedBy(c, h, e.time)))
    ensures Spaced(c, h + [e])
  {
    forall j | 0 <= j < |h + [e]| && (h + [e])[j].DoseEvent?
      ensures NoDose((h + [e])[..j]) || AllowedBy(c, (h + [e])[..j], (h + [e])[j].time)
    {
      assert (h + [e])[..j] == h[..j];
      if j == |h| { assert h[..j] == h; }
    }
  }

  lemma RetryContinues(c: Config, now: Time, h: seq<Event>, was: Target, row: Target, readAt: Time, t: Uuid)
    requires Spaced(c, h) && Continues(c, now, was, h)
    requires row.attempts == was.attempts && row.nextAttemptAt == Some(readAt + c.RetryDelay())
    ensures Spaced(c, h + [RetryEvent(t, readAt)]) && Continues(c, now, row, h + [RetryEvent(t, readAt)])
  {
    SpacedPlus(c, h, RetryEvent(t, readAt));
  }

  lemma FailureContinues(c: Config, now: Time, db: Db, f: Failure, t: Uuid, h: seq<Event>)
    requires Resumes(c, now, db.targets, h, t)
    ensures Resumes(c, now, FailTargets(db, f.target, f.code, f.message, f.readAt + c.RetryDelay(), c.maxRetryAttempts),
                    h + if f.target == t && FailureOutcomeOf(db, t, c.maxRetryAttempts) == Rescheduled
                        then [RetryEvent(t, f.readAt)] else [], t)
  {
    var after := FailTargets(db, f.target, f.code, f.message, f.readAt + c.RetryDelay(), c.maxRetryAttempts);
    assert h + [] == h;
    if f.target == t && FailureOutcomeOf(db, t, c.maxRetryAttempts) == Rescheduled {
      RetryContinues(c, now, h, db.targets[t], after[t], f.readAt, t);
    } else {
      assert after[t] == db.targets[t] || (after[t].nextAttemptAt.None? && after[t].attempts == db.targets[t].attempts);
    }
  }

  lemma FailureKeepsSpacing(c: Config, db: Db, f: Failure, log: seq<Event>, now: Time, t: Uuid)
    requires Resumes(c, now, db.targets, History(log, OfTarget(t)), t)
    ensures Resumes(c, now, FailureDb(c, db, f).targets, History(log + FailureEvents(c, db, f), OfTarget(t)), t)
  {
    FailureHistory(c, db, f, log, t);
    FailureContinues(c, now, db, f, t, History(log, OfTarget(t)));
  }

  lemma ReportContinuesExactly(c: Config, db: Db, now: Time, call: RepoCall, chosen: Uuid, t: Uuid, h: seq<Event>)
    requires WellFormed(db) && Resumes(c, now, db.targets, h, t)
    ensures Resumes(c, now, ReportDb(c, db, now, call, chosen).targets, h, t) <==>
            !ReleasesEarly(c, db, now, call, t, h)
  {
    if call.Update? {
      var after := ReportTargets(db, call.target, call.status, call.lastError, call.sentAt, now);
      assert t in after && after[t].attempts == db.targets[t].attempts;
      assert after[t].nextAttemptAt == db.targets[t].nextAttemptAt;
    }
  }

  lemma OtherSpacingExactly(c: Config, w: World, o: OtherStep, t: Uuid)
    requires OtherEnabled(c, w, o) && WellFormed(w.db) && KeptApart(c, w, t)
    ensures KeptApart(c, OtherNext(c, w, o), t) <==> !TooEarly(c, w, Elsewhere(o), t)
  {
    match o
    case ApplyFailure => FailureKeepsSpacing(c, w.db, w.failure.value, w.log, w.now, t);
    case Report(call, chosen) =>
      ReportContinuesExactly(c, w.db, w.now, call, chosen, t, History(w.log, OfTarget(t)));
      HistoryAppendNone(w.log, ReportEvents(w.db, call), OfTarget(t));
    case _ => HistoryAppendNone(w.log, OtherEvents(c, w, o), OfTarget(t));
  }

  /** A step keeps a target's doses apart exactly when it does not release the target too early. */
  lemma StepSpacingExactly(c: Config, w: World, s: Step, t: Uuid)
    requires Enabled(c, w, s) && WellFormed(w.db) && KeptApart(c, w, t)
    ensures KeptApart(c, Next(c, w, s), t) <==> !TooEarly(c, w, s, t)
  {
    match s
    case Doser(i, d) => DoserKeepsSpacing(c, w, w.dosers[i], d, t);
    case Elsewhere(o) => OtherSpacingExactly(c, w, o, t);
  }

  /** No report of the run releases the target too early. */
  predicate Punctual(c: Config, w: World, steps: seq<Step>, t: Uuid)
    requires Legal(c, w, steps)
    decreases |steps|
  {
    steps == [] || (!TooEarly(c, w, steps[0], t) && Punctual(c, Next(c, w, steps[0]), steps[1..], t))
  }

  predicate ApartThroughout(c: Config, w: World, steps: seq<Step>, t: Uuid)
    requires Legal(c, w, steps)
    decreases |steps|
  {
    KeptApart(c, w, t) && (steps == [] || ApartThroughout(c, Next(c, w, steps[0]), steps[1..], t))
  }

  /** A target's doses are kept apart in every state of a run exactly when no report releases it too early. */
  lemma {:induction false} RunSpacingExactly(c: Config, w: World, steps: seq<Step>, t: Uuid)
    requires Legal(c, w, steps) && WellFormed(w.db) && KeptApart(c, w, t)
    ensures ApartThroughout(c, w, steps, t) <==> Punctual(c, w, steps, t)
    ensures Punctual(c, w, steps, t) ==> KeptApart(c, Run(c, w, steps), t)
    decreases |steps|
  {
    if steps != [] {
      var next := Next(c, w, steps[0]);
      StepSpacingExactly(c, w, steps[0], t);
      WellFormedKept(c, w, steps[0]);
      if KeptApart(c, next, t) {
        RunSpacingExactly(c, next, steps[1..], t);
      }
    }
  }

  /** A caller who never releases a dosed target, which shows on its row, never does so too early. */
  lemma {:induction false} ReleaseFreeIsPunctual(c: Config, w: World, steps: seq<Step>, t: Uuid)
    requires Legal(c, w, steps) && Faultless(c, w, steps, Release)
    ensures Punctual(c, w, steps, t)
    decreases |steps|
  {
    if steps != [] {
      ReleaseFreeIsPunctual(c, Next(c, w, steps[0]), steps[1..], t);
    }
  }

  /**
   No duplicate dosing: between two doses of a target lies a retry decision by
   ApplyRetryableFailure, and the later dose comes at least the configured delay after the clock
   reading that decision was based on, as long as no report releases the target too early.
   */
  lemma NoDuplicateDosing(c: Config, w: World, steps: seq<Step>, t: Uuid, i: nat, j: nat)
    requires Initial(c, w) && Legal(c, w, steps) && t in w.db.targets && Punctual(c, w, steps, t)
    requires var h := History(Run(c, w, steps).log, OfTarget(t));
             i < j < |h| && h[i].DoseEvent? && h[j].DoseEvent?
    ensures var h := History(Run(c, w, steps).log, OfTarget(t));
            var delay := (if c.retryDelayMinutes < 1 then 15 else c.retryDelayMinutes) * 60_000_000;
            exists m :: i < m < j && h[m].RetryEvent? && h[j].time >= h[m].readAt + delay
  {
    RunSpacingExactly(c, w, steps, t);
    SpacedMeans(c, History(Run(c, w, steps).log, OfTarget(t)), i, j);
  }

  lemma SpacedMeans(c: Config, h: seq<Event>, i: nat, j: nat)
    requires Spaced(c, h) && i < j < |h| && h[i].DoseEvent? && h[j].DoseEvent?
    ensures exists m :: i < m < j && h[m].RetryEvent? && h[j].time >= h[m].readAt + c.RetryDelay()
  {
    assert h[..j][i].DoseEvent? && h[..j][j - 1] == h[j - 1];
  }

  // ---------------------------------------------------------------- doses and rows

  function DoseCount(h: seq<Event>): nat {
    if h == [] then 0 else DoseCount(h[..|h| - 1]) + if h[|h| - 1].DoseEvent? then 1 else 0
  }

  lemma DoseCountPlus(h: seq<Event>, e: Event, happens: bool)
    ensures DoseCount(h + if happens then [e] else []) == DoseCount(h) + if happens && e.DoseEvent? then 1 else 0
  {
    if happens {
      assert (h + [e])[..|h|] == h;
    } else {
      assert h + [] == h;
    }
  }

  predicate DosesLogged(log: seq<Event>, targets: map<Uuid, Target>, t: Uuid) {
    t in targets && DoseCount(History(log, OfTarget(t))) == targets[t].attempts
  }

  lemma ClaimLogsDose(c: Config, w: World, p: Phase, t: Uuid)
    requires DoserEnabled(c, w, p, ClaimTarget) && t in w.db.targets
    ensures var doses := ClaimOf(w, p) == Dosed && p.view.targetId == t;
            DoseCount(History(w.log + DoserEvents(c, w, p, ClaimTarget), OfTarget(t))) ==
            DoseCount(History(w.log, OfTarget(t))) + if doses then 1 else 0
  {
    DoserHistory(c, w, p, ClaimTarget, t);
    DoseCountPlus(History(w.log, OfTarget(t)),
                  DoseEvent(t, p.view.campaignId, p.account, w.now, p.tick.at, p.tick.mark),
                  ClaimOf(w, p) == Dosed && p.view.targetId == t);
  }

  lemma OtherCallLogsNoDose(c: Config, w: World, p: Phase, d: DoserStep, t: Uuid)
    requires DoserEnabled(c, w, p, d) && !d.ClaimTarget?
    ensures History(w.log + DoserEvents(c, w, p, d), OfTarget(t)) == History(w.log, OfTarget(t))
  {
    DoserHistory(c, w, p, d, t);
    assert History(w.log, OfTarget(t)) + [] == History(w.log, OfTarget(t));
  }

  lemma DoserLogsDoses(c: Config, w: World, p: Phase, d: DoserStep, t: Uuid)
    requires DoserEnabled(c, w, p, d) && DosesLogged(w.log, w.db.targets, t)
    ensures DosesLogged(w.log + DoserEvents(c, w, p, d), DoserDb(c, w, p, d).targets, t)
  {
    if d.ClaimTarget? {
      ClaimLogsDose(c, w, p, t);
      ClaimAttempts(w, p, t);
    } else {
      OtherCallLogsNoDose(c, w, p, d, t);
      DoserKeepsRows(c, w, p, d);
    }
  }

  lemma ClaimAttempts(w: World, p: Phase, t: Uuid)
    requires (p.SlotHeld? || p.Chosen?) && t in w.db.targets
    ensures var after := Claim(w.db, w.now, p.view.targetId, p.view.tenantId, p.account, EventFor(p.view, p.SlotHeld?),
                               BuildTask(p.view, p.account, p.SlotHeld?), p.tick.at);
            t in after.targets &&
            after.targets[t].attempts == w.db.targets[t].attempts +
                                         if ClaimOf(w, p) == Dosed && p.view.targetId == t then 1 else 0
  {
  }

  lemma OtherLogsNoDose(c: Config, w: World, o: OtherStep, t: Uuid)
    requires OtherEnabled(c, w, o) && DosesLogged(w.log, w.db.targets, t)
    ensures DosesLogged(w.log + OtherEvents(c, w, o), OtherDb(c, w, o).targets, t)
  {
    OtherFrame(c, w, o);
    if o.ApplyFailure? {
      FailureHistory(c, w.db, w.failure.value, w.log, t);
      var f := w.failure.value;
      DoseCountPlus(History(w.log, OfTarget(t)), RetryEvent(t, f.readAt),
                    f.target == t && FailureOutcomeOf(w.db, t, c.maxRetryAttempts) == Rescheduled);
    } else {
      HistoryAppendNone(w.log, OtherEvents(c, w, o), OfTarget(t));
    }
  }

  lemma {:induction false} DosesLoggedAlong(c: Config, w: World, steps: seq<Step>, t: Uuid)
    requires Legal(c, w, steps) && DosesLogged(w.log, w.db.targets, t)
    ensures DosesLogged(Run(c, w, steps).log, Run(c, w, steps).db.targets, t)
    decreases |steps|
  {
    if steps != [] {
      match steps[0] {
        case Doser(i, d) => DoserLogsDoses(c, w, w.dosers[i], d, t);
        case Elsewhere(o) => OtherLogsNoDose(c, w, o, t);
      }
      DosesLoggedAlong(c, Next(c, w, steps[0]), steps[1..], t);
    }
  }

  /** The doses in a target's history are exactly its outbox rows. */
  lemma DosesAreRows(c: Config, w: World, steps: seq<Step>, t: Uuid)
    requires Initial(c, w) && Legal(c, w, steps) && t in w.db.targets
    ensures var after := Run(c, w, steps);
            t in after.db.targets &&
            DoseCount(History(after.log, OfTarget(t))) == CountRows(c, after.db.outbox, ForTarget(t))
  {
    DosesLoggedAlong(c, w, steps, t);
    TripleEntry(c, w, steps);
  }

  // ---------------------------------------------------------------- deferral

  /** Deferral to `next` at `now` leaves no target with an earlier attempt time. */
  ghost predicate DeferralOnlyPostpones(next: Time, now: Time) {
    forall db, tenant, id :: IsDeferrable(db, tenant, now, id) && db.targets[id].nextAttemptAt.Some? ==>
      DeferRetries(db, tenant, next, now).targets[id].nextAttemptAt.Some? &&
      DeferRetries(db, tenant, next, now).targets[id].nextAttemptAt.value >= db.targets[id].nextAttemptAt.value
  }

  /** A database whose only target waits for a retry at time `at`. */
  function OneWaiting(at: Time): Db {
    Db(map[NIL := Target(NIL, NIL, None, Phone(""), "MAX", RetryPending, 1, Some(at), None, None, None, None, None,
                         None)],
       [NIL], map[NIL := Campaign(NIL, Processing, false, 0, 0, true, None)], map[], [], map[], map[], [], {}, map[],
       [])
  }

  /**
   Deferral uses the tick's own clock reading, so it postpones every target exactly when the
   window opening it computes has not already passed by the time the statement runs.
   */
  lemma DeferralPostponesExactly(c: Config, tickAt: Time, now: Time)
    ensures DeferralOnlyPostpones(c.NextDayWorkStart(tickAt), now) <==> now <= c.NextDayWorkStart(tickAt)
  {
    var next := c.NextDayWorkStart(tickAt);
    if next < now {
      var db := OneWaiting(now);
      assert IsDeferrable(db, NIL, now, NIL);
      assert DeferRetries(db, NIL, next, now).targets[NIL].nextAttemptAt == Some(next);
    }
  }

  /**
   What a deferral does to one target. It touches exactly the due retries of the tenant's running
   campaigns, and of those nothing but the next attempt time; they are held back exactly when that time lies ahead;
   and no other table changes.
   */
  lemma DeferralHoldsBackExactly(db: Db, tenant: Uuid, next: Time, now: Time, id: Uuid)
    requires id in db.targets && db.targets[id].campaign in db.campaigns
    ensures var after, t := DeferRetries(db, tenant, next, now), db.targets[id];
            var k := db.campaigns[t.campaign];
            var touched := k.tenant == tenant && k.status == Processing && !k.deleted && t.status == RetryPending &&
              (t.nextAttemptAt.None? || t.nextAttemptAt.value <= now);
            after == db.(targets := after.targets) && id in after.targets &&
            after.targets[id] == (if touched then t.(nextAttemptAt := Some(next)) else t) &&
            (Claimable(after.targets[id], now) <==> Claimable(t, now) && (touched ==> next <= now))
  {
  }
}
