/** Campaign lifecycle: it only moves forward, a stop takes effect, and completion means replied. */
module Lifecycle {
  import opened Domain
  import opened Settings
  import opened Tables
  import opened Protocol
  import opened Counting
  import opened Frames

  // ---------------------------------------------------------------- forward only

  function Stage(s: CampaignStatus): nat {
    match s
    case Draft => 0
    case Processing => 1
    case _ => 2
  }

  predicate Forward(a: map<Uuid, Campaign>, b: map<Uuid, Campaign>) {
    a.Keys == b.Keys && forall id :: id in a ==> Stage(a[id].status) <= Stage(b[id].status)
  }

  lemma ReportForward(c: Config, db: Db, now: Time, call: RepoCall, chosen: Uuid)
    ensures Forward(db.campaigns, ReportDb(c, db, now, call, chosen).campaigns)
  {
  }

  lemma StepForward(c: Config, w: World, s: Step)
    requires Enabled(c, w, s)
    ensures Forward(w.db.campaigns, Next(c, w, s).db.campaigns)
  {
    match s
    case Doser(i, d) => DoserKeepsIdentity(c, w, w.dosers[i], d);
    case Elsewhere(o) =>
      match o
      case ApplyFailure => FailureFrame(c, w.db, w.failure.value);
      case Report(call, chosen) => ReportForward(c, w.db, w.now, call, chosen);
      case StartListed(_) =>
      case Stop(_) =>
      case _ =>
  }

  /**
   A campaign that has left draft never re-enters it and one that has left processing never
   returns, even when the scheduler starts campaigns from a list made before the stop.
   */
  lemma {:induction false} NeverGoesBack(c: Config, w: World, steps: seq<Step>)
    requires Legal(c, w, steps)
    ensures Forward(w.db.campaigns, Run(c, w, steps).db.campaigns)
    decreases |steps|
  {
    if steps != [] {
      StepForward(c, w, steps[0]);
      NeverGoesBack(c, Next(c, w, steps[0]), steps[1..]);
    }
  }

  // ---------------------------------------------------------------- stop

  predicate Over(db: Db, campaign: Uuid) {
    campaign in db.campaigns && Stage(db.campaigns[campaign].status) == 2
  }

  /** Rows of the campaign plus the dosers that may still write one. */
  function RowsDue(c: Config, w: World, campaign: Uuid): nat {
    CountRows(c, w.db.outbox, ForCampaign(campaign)) + CountHolding(c, w.dosers, HeldTarget(campaign))
  }

  lemma DoserCampaignRows(c: Config, w: World, p: Phase, d: DoserStep, campaign: Uuid)
    requires DoserEnabled(c, w, p, d) && Over(w.db, campaign)
    ensures CountRows(c, DoserDb(c, w, p, d).outbox, ForCampaign(campaign)) <=
            CountRows(c, w.db.outbox, ForCampaign(campaign)) +
            if Holds(c, p, HeldTarget(campaign)) &&
              !Holds(c, DoserPhase(c, w, p, d), HeldTarget(campaign)) then 1 else 0
    ensures Holds(c, DoserPhase(c, w, p, d), HeldTarget(campaign)) ==> Holds(c, p, HeldTarget(campaign))
  {
    if d.ClaimTarget? {
      if ClaimOf(w, p) == Dosed {
        CountRowsAppend(c, w.db.outbox,
                        OutboxRow(EventFor(p.view, p.SlotHeld?), BuildTask(p.view, p.account, p.SlotHeld?),
                                  p.view.tenantId, p.account, p.tick.at, false),
                        ForCampaign(campaign));
      }
    } else {
      DoserKeepsRows(c, w, p, d);
    }
  }

  lemma StepWritesNoMore(c: Config, w: World, s: Step, campaign: Uuid)
    requires Enabled(c, w, s) && Over(w.db, campaign)
    ensures Over(Next(c, w, s).db, campaign)
    ensures RowsDue(c, Next(c, w, s), campaign) <= RowsDue(c, w, campaign)
  {
    StepForward(c, w, s);
    match s
    case Doser(i, d) =>
      DoserCampaignRows(c, w, w.dosers[i], d, campaign);
      CountHoldingUpdate(c, w.dosers, i, DoserPhase(c, w, w.dosers[i], d), HeldTarget(campaign));
    case Elsewhere(o) => OtherWritesNoMore(c, w, o, campaign);
  }

  lemma OtherWritesNoMore(c: Config, w: World, o: OtherStep, campaign: Uuid)
    requires OtherEnabled(c, w, o)
    ensures RowsDue(c, OtherNext(c, w, o), campaign) == RowsDue(c, w, campaign)
  {
    OtherFrame(c, w, o);
    CountRowsMarked(c, w.db.outbox, OtherDb(c, w, o).outbox, ForCampaign(campaign));
  }

  /**
   Stop is effective: once a campaign is neither draft nor processing, any further run adds at
   most one outbox row per doser that had already selected one of its targets.
   */
  lemma {:induction false} StopIsEffective(c: Config, w: World, steps: seq<Step>, campaign: Uuid)
    requires Legal(c, w, steps) && Over(w.db, campaign)
    ensures var after := Run(c, w, steps);
            Over(after.db, campaign) &&
            RowsDue(c, after, campaign) <= RowsDue(c, w, campaign) &&
            CountRows(c, after.db.outbox, ForCampaign(campaign)) <=
            CountRows(c, w.db.outbox, ForCampaign(campaign)) + CountHolding(c, w.dosers, HeldTarget(campaign)) <=
            CountRows(c, w.db.outbox, ForCampaign(campaign)) + |w.dosers|
    decreases |steps|
  {
    if steps != [] {
      StepWritesNoMore(c, w, steps[0], campaign);
      StopIsEffective(c, Next(c, w, steps[0]), steps[1..], campaign);
    }
  }

  /**
   A stop ends the campaign at once, whatever it was doing: it never is draft or processing again, and gets at most one
   more row for each doser that held one of its targets.
   */
  lemma StopEndsCampaign(c: Config, w: World, steps: seq<Step>, campaign: Uuid)
    requires campaign in w.db.campaigns && Enabled(c, w, Elsewhere(Stop(campaign)))
    requires Legal(c, Next(c, w, Elsewhere(Stop(campaign))), steps)
    ensures var stopped := Next(c, w, Elsewhere(Stop(campaign)));
            var after := Run(c, stopped, steps);
            stopped.db ==
            w.db.(campaigns := w.db.campaigns[campaign := w.db.campaigns[campaign].(status := Stopped)]) &&
            campaign in after.db.campaigns && after.db.campaigns[campaign].status !in {Draft, Processing} &&
            CountRows(c, after.db.outbox, ForCampaign(campaign)) <=
            CountRows(c, w.db.outbox, ForCampaign(campaign)) + CountHolding(c, w.dosers, HeldTarget(campaign))
  {
    StopIsEffective(c, Next(c, w, Elsewhere(Stop(campaign))), steps, campaign);
  }

  // ---------------------------------------------------------------- completion

  /** The only step that can take `replied` away: an error status reported for the target. */
  predicate Erases(s: Step, target: Uuid) {
    s.Elsewhere? && s.o.Report? && s.o.call.Update? && s.o.call.target == target && s.o.call.status.IsErrorStatus()
  }

  lemma ReportKeepsReplied(c: Config, db: Db, now: Time, call: RepoCall, chosen: Uuid, target: Uuid)
    requires WellFormed(db) && target in db.targets && db.targets[target].status == Replied
    ensures var after := ReportDb(c, db, now, call, chosen);
            target in after.targets &&
            (after.targets[target].status == Replied <==>
             !(call.Update? && call.target == target && call.status.IsErrorStatus()))
  {
  }

  /** A replied target stays replied under a step exactly when the step does not erase it. */
  lemma RepliedKeptExactly(c: Config, w: World, s: Step, target: Uuid)
    requires Enabled(c, w, s) && WellFormed(w.db) && target in w.db.targets && w.db.targets[target].status == Replied
    ensures target in Next(c, w, s).db.targets
    ensures Next(c, w, s).db.targets[target].status == Replied <==> !Erases(s, target)
  {
    match s
    case Doser(i, d) => DoserKeepsReplied(c, w, w.dosers[i], d, target);
    case Elsewhere(o) => OtherKeepsReplied(c, w, o, target);
  }

  lemma OtherKeepsReplied(c: Config, w: World, o: OtherStep, target: Uuid)
    requires OtherEnabled(c, w, o) && WellFormed(w.db) && target in w.db.targets &&
             w.db.targets[target].status == Replied
    ensures target in OtherDb(c, w, o).targets
    ensures OtherDb(c, w, o).targets[target].status == Replied <==> !Erases(Elsewhere(o), target)
  {
    if o.Report? { ReportKeepsReplied(c, w.db, w.now, o.call, o.chosen, target); }
  }

  lemma DoserKeepsReplied(c: Config, w: World, p: Phase, d: DoserStep, target: Uuid)
    requires DoserEnabled(c, w, p, d) && target in w.db.targets && w.db.targets[target].status == Replied
    ensures target in DoserDb(c, w, p, d).targets && DoserDb(c, w, p, d).targets[target].status == Replied
  {
  }

  /** The targets whose replies a completed campaign rests on. */
  predicate InCompleted(db: Db, t: Uuid)
    requires t in db.targets
  {
    db.targets[t].campaign in db.campaigns && db.campaigns[db.targets[t].campaign].status == Completed
  }

  predicate CompletedAreReplied(db: Db) {
    forall id :: id in db.campaigns && db.campaigns[id].status == Completed ==> AllReplied(db.targets, id)
  }

  lemma WellFormedKept(c: Config, w: World, s: Step)
    requires Enabled(c, w, s) && WellFormed(w.db)
    ensures WellFormed(Next(c, w, s).db)
  {
    match s
    case Doser(i, d) => DoserKeepsWellFormed(c, w, w.dosers[i], d);
    case Elsewhere(o) =>
      OtherFrame(c, w, o);
      if o.Report? { ReportKeepsWellFormed(c, w.db, w.now, o.call, o.chosen); }
  }

  lemma DoserKeepsWellFormed(c: Config, w: World, p: Phase, d: DoserStep)
    requires DoserEnabled(c, w, p, d) && WellFormed(w.db)
    ensures WellFormed(DoserDb(c, w, p, d))
  {
    DoserKeepsIdentity(c, w, p, d);
  }

  lemma ReportKeepsWellFormed(c: Config, db: Db, now: Time, call: RepoCall, chosen: Uuid)
    requires WellFormed(db)
    ensures WellFormed(ReportDb(c, db, now, call, chosen))
  {
    ReportFrame(c, db, now, call, chosen);
  }

  /** A campaign turns completed only by RegisterReply and only when all its targets are replied. */
  lemma CompletionChecked(c: Config, w: World, s: Step, campaign: Uuid)
    requires Enabled(c, w, s) && campaign in w.db.campaigns && w.db.campaigns[campaign].status != Completed
    ensures campaign in Next(c, w, s).db.campaigns
    ensures Next(c, w, s).db.campaigns[campaign].status == Completed ==>
            s.Elsewhere? && s.o.Report? && s.o.call.Register? && s.o.call.campaign == campaign &&
            AllReplied(Next(c, w, s).db.targets, campaign)
  {
    match s
    case Doser(i, d) => DoserKeepsIdentity(c, w, w.dosers[i], d);
    case Elsewhere(o) => OtherCompletes(c, w, o, campaign);
  }

  lemma OtherCompletes(c: Config, w: World, o: OtherStep, campaign: Uuid)
    requires OtherEnabled(c, w, o) && campaign in w.db.campaigns && w.db.campaigns[campaign].status != Completed
    ensures var after := OtherDb(c, w, o);
            campaign in after.campaigns &&
            (after.campaigns[campaign].status == Completed ==>
               o.Report? && o.call.Register? && o.call.campaign == campaign && AllReplied(after.targets, campaign))
  {
    if o.Report? { ReportCompletes(c, w.db, w.now, o.call, o.chosen, campaign); }
    if o.ApplyFailure? { FailureFrame(c, w.db, w.failure.value); }
  }

  lemma ReportCompletes(c: Config, db: Db, now: Time, call: RepoCall, chosen: Uuid, campaign: Uuid)
    requires campaign in db.campaigns && db.campaigns[campaign].status != Completed
    ensures var after := ReportDb(c, db, now, call, chosen);
            campaign in after.campaigns &&
            (after.campaigns[campaign].status == Completed ==>
               call.Register? && call.campaign == campaign && AllReplied(after.targets, campaign))
  {
  }

  lemma StepKeepsCompletion(c: Config, w: World, s: Step)
    requires Enabled(c, w, s) && WellFormed(w.db) && CompletedAreReplied(w.db)
    requires forall t :: t in w.db.targets && w.db.targets[t].status == Replied && InCompleted(w.db, t) ==>
             !Erases(s, t)
    ensures CompletedAreReplied(Next(c, w, s).db)
  {
    StepForward(c, w, s);
    var after := Next(c, w, s).db;
    match s {
      case Doser(i, d) => DoserKeepsIdentity(c, w, w.dosers[i], d);
      case Elsewhere(o) => OtherFrame(c, w, o);
    }
    forall id | id in after.campaigns && after.campaigns[id].status == Completed ensures AllReplied(after.targets, id) {
      if w.db.campaigns[id].status == Completed {
        forall t | t in after.targets && after.targets[t].campaign == id ensures after.targets[t].status == Replied {
          RepliedKeptExactly(c, w, s, t);
        }
      } else {
        CompletionChecked(c, w, s, id);
      }
    }
  }
}
