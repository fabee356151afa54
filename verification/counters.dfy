/** Campaign counters bound the targets they are meant to count. */
module CampaignCounters {
  import opened Domain
  import opened Settings
  import opened Tables
  import opened Protocol
  import opened Counting
  import opened Frames
  import opened DoseSpacing

  datatype Class = DeliveredClass | ErrorClass

  predicate InClass(t: Target, campaign: Uuid, k: Class) {
    t.campaign == campaign &&
    match k
    case DeliveredClass => t.status == Delivered
    case ErrorClass => t.status.IsErrorStatus()
  }

  function Members(targets: map<Uuid, Target>, campaign: Uuid, k: Class): set<Uuid> {
    set id | id in targets && InClass(targets[id], campaign, k)
  }

  function CounterOf(c: Campaign, k: Class): int {
    match k
    case DeliveredClass => c.processedCount
    case ErrorClass => c.errorCount
  }

  /** Losses that change a target's status without touching the campaign row. */
  function Uncounted(log: seq<Event>, campaign: Uuid, k: Class): nat {
    if k.ErrorClass? then |History(log, OfLosses(campaign))| else 0
  }

  predicate Covered(db: Db, log: seq<Event>, campaign: Uuid, k: Class) {
    campaign in db.campaigns &&
    |Members(db.targets, campaign, k)| <= CounterOf(db.campaigns[campaign], k) + Uncounted(log, campaign, k)
  }

  lemma NoGain(a: set<Uuid>, b: set<Uuid>)
    requires b <= a
    ensures |b| <= |a|
  {
    if a != b {
      var x :| x in a && x !in b;
      assert b <= a - {x};
      NoGain(a - {x}, b);
    }
  }

  lemma GainOne(a: set<Uuid>, b: set<Uuid>, x: Uuid)
    requires b <= a + {x}
    ensures |b| <= |a| + 1
  {
    NoGain(a + {x}, b);
  }

  lemma DoserGainsNone(c: Config, w: World, p: Phase, d: DoserStep, campaign: Uuid, k: Class)
    requires DoserEnabled(c, w, p, d)
    ensures Members(DoserDb(c, w, p, d).targets, campaign, k) <= Members(w.db.targets, campaign, k)
  {
  }

  lemma DoserLosesNone(c: Config, w: World, p: Phase, d: DoserStep, campaign: Uuid)
    requires DoserEnabled(c, w, p, d)
    ensures History(w.log + DoserEvents(c, w, p, d), OfLosses(campaign)) == History(w.log, OfLosses(campaign))
  {
    HistoryAppendNone(w.log, DoserEvents(c, w, p, d), OfLosses(campaign));
  }

  lemma FailureGain(c: Config, db: Db, f: Failure, campaign: Uuid, k: Class)
    ensures var a, b := Members(db.targets, campaign, k), Members(FailureDb(c, db, f).targets, campaign, k);
            if k.ErrorClass? && FailureOutcomeOf(db, f.target, c.maxRetryAttempts) == Exhausted &&
               db.targets[f.target].campaign == campaign
            then b <= a + {f.target} else b <= a
  {
  }

  lemma FailureLosses(c: Config, db: Db, f: Failure, log: seq<Event>, campaign: Uuid)
    ensures |History(log + FailureEvents(c, db, f), OfLosses(campaign))| ==
            |History(log, OfLosses(campaign))| +
            if FailureOutcomeOf(db, f.target, c.maxRetryAttempts) == Exhausted &&
              db.targets[f.target].campaign == campaign
            then 1 else 0
  {
    var es := FailureEvents(c, db, f);
    if FailureOutcomeOf(db, f.target, c.maxRetryAttempts) == Exhausted && db.targets[f.target].campaign == campaign {
      var e := ExhaustEvent(f.target, campaign);
      assert log + es == (log + es[..|es| - 1]) + [e];
      HistoryAppendNone(log, es[..|es| - 1], OfLosses(campaign));
      HistoryAppend(log + es[..|es| - 1], e, OfLosses(campaign));
    } else {
      HistoryAppendNone(log, es, OfLosses(campaign));
    }
  }

  lemma FailureKeepsCovered(c: Config, db: Db, f: Failure, log: seq<Event>, campaign: Uuid, k: Class)
    requires Covered(db, log, campaign, k)
    ensures Covered(FailureDb(c, db, f), log + FailureEvents(c, db, f), campaign, k)
  {
    FailureGain(c, db, f, campaign, k);
    FailureLosses(c, db, f, log, campaign);
    var a, b := Members(db.targets, campaign, k), Members(FailureDb(c, db, f).targets, campaign, k);
    if b <= a { NoGain(a, b); } else { GainOne(a, b, f.target); }
  }

  lemma UpdateGain(db: Db, target: Uuid, status: TaskStatus, err: Option<string>, sentAt: Option<Time>, now: Time,
                   campaign: Uuid, k: Class)
    requires campaign in db.campaigns
    ensures var after := UpdateTargetStatus(db, target, status, err, sentAt, now);
            var a, b := Members(db.targets, campaign, k), Members(after.targets, campaign, k);
            campaign in after.campaigns &&
            CounterOf(db.campaigns[campaign], k) <= CounterOf(after.campaigns[campaign], k) &&
            b <= a + {target} &&
            (b <= a || CounterOf(after.campaigns[campaign], k) == CounterOf(db.campaigns[campaign], k) + 1)
  {
  }

  lemma UpdateKeepsCovered(db: Db, target: Uuid, status: TaskStatus, err: Option<string>, sentAt: Option<Time>,
                           now: Time,
                           log: seq<Event>, campaign: Uuid, k: Class)
    requires Covered(db, log, campaign, k)
    ensures Covered(UpdateTargetStatus(db, target, status, err, sentAt, now), log, campaign, k)
  {
    UpdateGain(db, target, status, err, sentAt, now, campaign, k);
    var after := UpdateTargetStatus(db, target, status, err, sentAt, now);
    var a, b := Members(db.targets, campaign, k), Members(after.targets, campaign, k);
    if b <= a { NoGain(a, b); } else { GainOne(a, b, target); }
  }

  lemma UnknownKeepsCovered(db: Db, target: Uuid, code: string, message: string, log: seq<Event>, campaign: Uuid,
                            k: Class)
    requires Covered(db, log, campaign, k)
    ensures Covered(MarkDeliveryUnknown(db, target, code, message),
                    log + ReportEvents(db, MarkUnknown(target, code, message)),
                    campaign, k)
  {
    var after := MarkDeliveryUnknown(db, target, code, message);
    var a, b := Members(db.targets, campaign, k), Members(after.targets, campaign, k);
    var es := ReportEvents(db, MarkUnknown(target, code, message));
    if es == [] {
      HistoryAppendNone(log, es, OfLosses(campaign));
    } else {
      HistoryAppend(log, es[0], OfLosses(campaign));
      assert es == [es[0]];
    }
    if b <= a { NoGain(a, b); } else { GainOne(a, b, target); }
  }

  lemma ReplyKeepsCovered(db: Db, campaign: Uuid, phone: Phone, text: string, at: Time, unsub: bool, chosen: Uuid,
                          log: seq<Event>, id: Uuid, k: Class)
    requires Covered(db, log, id, k)
    ensures Covered(RegisterReply(db, campaign, phone, text, at, unsub, chosen), log, id, k)
  {
    var after := RegisterReply(db, campaign, phone, text, at, unsub, chosen);
    assert Members(after.targets, id, k) <= Members(db.targets, id, k);
    NoGain(Members(db.targets, id, k), Members(after.targets, id, k));
  }

  /** Target t of the campaign went into an error that no counter shows. */
  predicate IsLost(before: Db, after: Db, campaign: Uuid, t: Uuid) {
    t in before.targets && t in after.targets && before.targets[t].campaign == campaign &&
    after.targets[t].status in {Failed, DeliveryUnknown} && before.targets[t].status != after.targets[t].status &&
    after.campaigns == before.campaigns
  }

  lemma FailureLoses(c: Config, db: Db, f: Failure, log: seq<Event>, campaign: Uuid)
    requires |History(log + FailureEvents(c, db, f), OfLosses(campaign))| > |History(log, OfLosses(campaign))|
    ensures |History(log + FailureEvents(c, db, f), OfLosses(campaign))| == |History(log, OfLosses(campaign))| + 1
    ensures IsLost(db, FailureDb(c, db, f), campaign, f.target)
  {
    FailureLosses(c, db, f, log, campaign);
  }

  lemma ReportLoses(c: Config, db: Db, now: Time, call: RepoCall, chosen: Uuid, log: seq<Event>, campaign: Uuid)
    requires |History(log + ReportEvents(db, call), OfLosses(campaign))| > |History(log, OfLosses(campaign))|
    ensures |History(log + ReportEvents(db, call), OfLosses(campaign))| == |History(log, OfLosses(campaign))| + 1
    ensures call.MarkUnknown? && IsLost(db, ReportDb(c, db, now, call, chosen), campaign, call.target)
  {
    if call.MarkUnknown? && Unknowable(db, call.target) {
      HistoryAppend(log, UnknownEvent(call.target, db.targets[call.target].campaign), OfLosses(campaign));
    } else {
      HistoryAppendNone(log, ReportEvents(db, call), OfLosses(campaign));
    }
  }

  lemma OtherLoses(c: Config, w: World, o: OtherStep, campaign: Uuid) returns (t: Uuid)
    requires OtherEnabled(c, w, o)
    requires |History(w.log + OtherEvents(c, w, o), OfLosses(campaign))| > |History(w.log, OfLosses(campaign))|
    ensures |History(w.log + OtherEvents(c, w, o), OfLosses(campaign))| == |History(w.log, OfLosses(campaign))| + 1
    ensures IsLost(w.db, OtherDb(c, w, o), campaign, t)
  {
    match o
    case ApplyFailure =>
      FailureLoses(c, w.db, w.failure.value, w.log, campaign);
      t := w.failure.value.target;
    case Report(call, chosen) =>
      ReportLoses(c, w.db, w.now, call, chosen, w.log, campaign);
      t := call.target;
    case _ =>
      HistoryAppendNone(w.log, OtherEvents(c, w, o), OfLosses(campaign));
      assert false;
  }

  /** What is counted as lost is lost: such a step takes a target of the campaign into an error, uncounted. */
  lemma LossesAreReal(c: Config, w: World, s: Step, campaign: Uuid) returns (t: Uuid)
    requires Enabled(c, w, s)
    requires |History(Next(c, w, s).log, OfLosses(campaign))| > |History(w.log, OfLosses(campaign))|
    ensures |History(Next(c, w, s).log, OfLosses(campaign))| == |History(w.log, OfLosses(campaign))| + 1
    ensures IsLost(w.db, Next(c, w, s).db, campaign, t)
  {
    match s
    case Doser(i, d) =>
      DoserLosesNone(c, w, w.dosers[i], d, campaign);
      assert false;
    case Elsewhere(o) => t := OtherLoses(c, w, o, campaign);
  }

  lemma OtherKeepsCovered(c: Config, w: World, o: OtherStep, campaign: Uuid, k: Class)
    requires OtherEnabled(c, w, o) && Covered(w.db, w.log, campaign, k)
    ensures Covered(OtherDb(c, w, o), w.log + OtherEvents(c, w, o), campaign, k)
  {
    match o
    case ApplyFailure => FailureKeepsCovered(c, w.db, w.failure.value, w.log, campaign, k);
    case Report(call, chosen) => ReportKeepsCovered(c, w, call, chosen, campaign, k);
    case _ => assert w.log + [] == w.log;
  }

  lemma ReportKeepsCovered(c: Config, w: World, call: RepoCall, chosen: Uuid, campaign: Uuid, k: Class)
    requires Covered(w.db, w.log, campaign, k)
    ensures Covered(ReportDb(c, w.db, w.now, call, chosen), w.log + ReportEvents(w.db, call), campaign, k)
  {
    assert w.log + [] == w.log;
    match call
    case Update(target, status, err, sentAt) =>
      UpdateKeepsCovered(w.db, target, status, err, sentAt, w.now, w.log, campaign, k);
    case MarkUnknown(target, code, message) => UnknownKeepsCovered(w.db, target, code, message, w.log, campaign, k);
    case Register(id, phone, text, at) =>
      ReplyKeepsCovered(w.db, id, phone, text, at, c.IsUnsubscribeReply(text), chosen, w.log, campaign, k);
    case _ =>
  }

  lemma DoserKeepsCovered(c: Config, w: World, p: Phase, d: DoserStep, campaign: Uuid, k: Class)
    requires DoserEnabled(c, w, p, d) && Covered(w.db, w.log, campaign, k)
    ensures Covered(DoserDb(c, w, p, d), w.log + DoserEvents(c, w, p, d), campaign, k)
  {
    DoserKeepsIdentity(c, w, p, d);
    DoserLosesNone(c, w, p, d, campaign);
    DoserGainsNone(c, w, p, d, campaign, k);
    NoGain(Members(w.db.targets, campaign, k), Members(DoserDb(c, w, p, d).targets, campaign, k));
  }

  lemma {:induction false} CoveredAlong(c: Config, w: World, steps: seq<Step>, campaign: Uuid, k: Class)
    requires Legal(c, w, steps) && Covered(w.db, w.log, campaign, k)
    ensures Covered(Run(c, w, steps).db, Run(c, w, steps).log, campaign, k)
    decreases |steps|
  {
    if steps != [] {
      match steps[0] {
        case Doser(i, d) => DoserKeepsCovered(c, w, w.dosers[i], d, campaign, k);
        case Elsewhere(o) => OtherKeepsCovered(c, w, o, campaign, k);
      }
      CoveredAlong(c, Next(c, w, steps[0]), steps[1..], campaign, k);
    }
  }

  /**
   In every reachable state, a campaign's delivered targets number at most processed_count, and
   its targets in an error status at most error_count plus the losses it does not count: retry
   exhaustions and applied delivery-unknown marks.
   */
  lemma CountersBoundTargets(c: Config, w: World, steps: seq<Step>, campaign: Uuid)
    requires Initial(c, w) && Legal(c, w, steps) && campaign in w.db.campaigns
    ensures var after := Run(c, w, steps);
            campaign in after.db.campaigns &&
            |Members(after.db.targets, campaign, DeliveredClass)| <= after.db.campaigns[campaign].processedCount &&
            |Members(after.db.targets, campaign, ErrorClass)| <=
            after.db.campaigns[campaign].errorCount + |History(after.log, OfLosses(campaign))|
  {
    assert Members(w.db.targets, campaign, DeliveredClass) == {};
    assert Members(w.db.targets, campaign, ErrorClass) == {};
    CoveredAlong(c, w, steps, campaign, DeliveredClass);
    CoveredAlong(c, w, steps, campaign, ErrorClass);
  }
}
