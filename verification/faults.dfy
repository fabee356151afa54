/**
 Laws that a status report can break, and the reports that break them. Reports come from outside and
 the code writes what they say; each law holds throughout a run exactly when no report commits its fault.
 */
module Faults {
  import opened Domain
  import opened Settings
  import opened Tables
  import opened Protocol
  import opened Frames
  import opened Lifecycle

  datatype Fault =
    | Overrun               // retry_pending reported for a target whose attempts are used up
    | Release               // retry_pending reported for a dosed target that has no next attempt time
    | Reopen(target: Uuid)  // pending or retry_pending reported for the target while it is in error
    | Erase                 // an error reported for a replied target of a completed campaign

  /** A target whose stored status gives way to a reported retry_pending. */
  predicate AcceptsRetry(t: Target) {
    t.status == Pending || t.status.IsErrorStatus()
  }

  predicate IsFaulty(c: Config, db: Db, target: Uuid, status: TaskStatus, f: Fault) {
    target in db.targets &&
    var t := db.targets[target];
    match f
    case Overrun => status == RetryPending && AcceptsRetry(t) && t.attempts >= c.MaxAttempts()
    case Release => status == RetryPending && AcceptsRetry(t) && t.attempts > 0 && t.nextAttemptAt.None?
    case Reopen(id) => id == target && status.IsOrchestratorOwned() && t.status.IsErrorStatus()
    case Erase =>
      status.IsErrorStatus() && t.status == Replied &&
      t.campaign in db.campaigns && db.campaigns[t.campaign].status == Completed
  }

  predicate CallCommits(c: Config, db: Db, call: RepoCall, f: Fault) {
    call.Update? && IsFaulty(c, db, call.target, call.status, f)
  }

  predicate Commits(c: Config, w: World, s: Step, f: Fault) {
    s.Elsewhere? && s.o.Report? && CallCommits(c, w.db, s.o.call, f)
  }

  // ---------------------------------------------------------------- the laws

  predicate WithinLimit(max: int, t: Target) {
    t.attempts <= max && (t.status == RetryPending ==> t.attempts < max)
  }

  predicate AttemptsLimited(max: int, targets: map<Uuid, Target>) {
    forall id :: id in targets ==> WithinLimit(max, targets[id])
  }

  /** Whoever waits for a further attempt knows when it may come. */
  predicate RetriesTimed(targets: map<Uuid, Target>) {
    forall id :: id in targets && targets[id].status == RetryPending && targets[id].attempts > 0 ==>
      targets[id].nextAttemptAt.Some?
  }

  predicate Settled(targets: map<Uuid, Target>, t: Uuid) {
    t in targets && targets[t].status.IsSettled()
  }

  predicate TargetsSound(c: Config, targets: map<Uuid, Target>, f: Fault)
    requires !f.Erase?
  {
    match f
    case Overrun => AttemptsLimited(c.MaxAttempts(), targets)
    case Release => RetriesTimed(targets)
    case Reopen(target) => Settled(targets, target)
  }

  predicate Sound(c: Config, db: Db, f: Fault) {
    if f.Erase? then CompletedAreReplied(db) else TargetsSound(c, db.targets, f)
  }

  // ---------------------------------------------------------------- one step

  lemma DoserKeepsSound(c: Config, w: World, p: Phase, d: DoserStep, f: Fault)
    requires DoserEnabled(c, w, p, d) && !f.Erase? && TargetsSound(c, w.db.targets, f)
    ensures TargetsSound(c, DoserDb(c, w, p, d).targets, f)
  {
  }

  lemma FailureKeepsSound(c: Config, db: Db, g: Failure, f: Fault)
    requires !f.Erase? && TargetsSound(c, db.targets, f)
    ensures TargetsSound(c, FailureDb(c, db, g).targets, f)
  {
  }

  lemma UpdateSoundExactly(c: Config, db: Db, now: Time, target: Uuid, status: TaskStatus, err: Option<string>,
                           sentAt: Option<Time>, f: Fault)
    requires WellFormed(db) && !f.Erase? && TargetsSound(c, db.targets, f)
    ensures TargetsSound(c, ReportTargets(db, target, status, err, sentAt, now), f) <==>
            !IsFaulty(c, db, target, status, f)
  {
    var after := ReportTargets(db, target, status, err, sentAt, now);
    if IsFaulty(c, db, target, status, f) {
      assert target in after && after[target].status == status;
    }
  }

  lemma ReportSoundExactly(c: Config, db: Db, now: Time, call: RepoCall, chosen: Uuid, f: Fault)
    requires WellFormed(db) && !f.Erase? && TargetsSound(c, db.targets, f)
    ensures TargetsSound(c, ReportDb(c, db, now, call, chosen).targets, f) <==> !CallCommits(c, db, call, f)
  {
    if call.Update? {
      UpdateSoundExactly(c, db, now, call.target, call.status, call.lastError, call.sentAt, f);
    }
  }

  lemma TargetsSoundExactly(c: Config, w: World, s: Step, f: Fault)
    requires Enabled(c, w, s) && WellFormed(w.db) && !f.Erase? && TargetsSound(c, w.db.targets, f)
    ensures TargetsSound(c, Next(c, w, s).db.targets, f) <==> !Commits(c, w, s, f)
  {
    match s
    case Doser(i, d) => DoserKeepsSound(c, w, w.dosers[i], d, f);
    case Elsewhere(o) => OtherSoundExactly(c, w, o, f);
  }

  lemma OtherSoundExactly(c: Config, w: World, o: OtherStep, f: Fault)
    requires OtherEnabled(c, w, o) && WellFormed(w.db) && !f.Erase? && TargetsSound(c, w.db.targets, f)
    ensures TargetsSound(c, OtherDb(c, w, o).targets, f) <==> !(o.Report? && CallCommits(c, w.db, o.call, f))
  {
    match o
    case ApplyFailure => FailureKeepsSound(c, w.db, w.failure.value, f);
    case Report(call, chosen) => ReportSoundExactly(c, w.db, w.now, call, chosen, f);
    case _ => assert OtherDb(c, w, o).targets == w.db.targets;
  }

  lemma CompletionSoundExactly(c: Config, w: World, s: Step)
    requires Enabled(c, w, s) && WellFormed(w.db) && CompletedAreReplied(w.db)
    ensures CompletedAreReplied(Next(c, w, s).db) <==> !Commits(c, w, s, Erase)
  {
    if Commits(c, w, s, Erase) {
      var target := s.o.call.target;
      var campaign := w.db.targets[target].campaign;
      OtherFrame(c, w, s.o);
      RepliedKeptExactly(c, w, s, target);
      CompletionStays(c, w.db, w.now, s.o.call, s.o.chosen, campaign);
    } else {
      forall t | t in w.db.targets && w.db.targets[t].status == Replied && InCompleted(w.db, t) ensures !Erases(s, t) {
      }
      StepKeepsCompletion(c, w, s);
    }
  }

  lemma CompletionStays(c: Config, db: Db, now: Time, call: RepoCall, chosen: Uuid, campaign: Uuid)
    requires campaign in db.campaigns && db.campaigns[campaign].status == Completed
    ensures var after := ReportDb(c, db, now, call, chosen);
            campaign in after.campaigns && after.campaigns[campaign].status == Completed
  {
  }

  /** A step keeps a law exactly when it does not commit the law's fault. */
  lemma StepSoundExactly(c: Config, w: World, s: Step, f: Fault)
    requires Enabled(c, w, s) && WellFormed(w.db) && Sound(c, w.db, f)
    ensures Sound(c, Next(c, w, s).db, f) <==> !Commits(c, w, s, f)
  {
    if f.Erase? {
      CompletionSoundExactly(c, w, s);
    } else {
      TargetsSoundExactly(c, w, s, f);
    }
  }

  // ---------------------------------------------------------------- whole runs

  predicate Faultless(c: Config, w: World, steps: seq<Step>, f: Fault)
    requires Legal(c, w, steps)
    decreases |steps|
  {
    steps == [] || (!Commits(c, w, steps[0], f) && Faultless(c, Next(c, w, steps[0]), steps[1..], f))
  }

  predicate SoundThroughout(c: Config, w: World, steps: seq<Step>, f: Fault)
    requires Legal(c, w, steps)
    decreases |steps|
  {
    Sound(c, w.db, f) && (steps == [] || SoundThroughout(c, Next(c, w, steps[0]), steps[1..], f))
  }

  /** A law holds in every state of a run exactly when no step of the run commits its fault. */
  lemma {:induction false} RunSoundExactly(c: Config, w: World, steps: seq<Step>, f: Fault)
    requires Legal(c, w, steps) && WellFormed(w.db) && Sound(c, w.db, f)
    ensures SoundThroughout(c, w, steps, f) <==> Faultless(c, w, steps, f)
    ensures Faultless(c, w, steps, f) ==> Sound(c, Run(c, w, steps).db, f)
    decreases |steps|
  {
    if steps != [] {
      var next := Next(c, w, steps[0]);
      StepSoundExactly(c, w, steps[0], f);
      WellFormedKept(c, w, steps[0]);
      if Sound(c, next.db, f) {
        RunSoundExactly(c, next, steps[1..], f);
      }
    }
  }

  lemma InitiallySound(c: Config, w: World, f: Fault)
    requires Initial(c, w) && !f.Reopen?
    ensures WellFormed(w.db) && Sound(c, w.db, f)
  {
  }
}
