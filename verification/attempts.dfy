/** Attempts are bounded and settled targets stay settled, as long as no report undoes it. */
module AttemptLimits {
  import opened Domain
  import opened Settings
  import opened Tables
  import opened Protocol
  import opened Counting
  import opened Frames
  import opened Conservation
  import opened Lifecycle
  import opened Faults

  // ---------------------------------------------------------------- settled targets

  lemma SettledNotDosed(c: Config, w: World, s: Step, t: Uuid)
    requires Enabled(c, w, s) && Settled(w.db.targets, t)
    ensures t in Next(c, w, s).db.targets && Next(c, w, s).db.targets[t].attempts == w.db.targets[t].attempts
  {
    match s
    case Doser(i, d) => DoserSparesSettled(c, w, w.dosers[i], d, t);
    case Elsewhere(o) => OtherFrame(c, w, o);
  }

  lemma DoserSparesSettled(c: Config, w: World, p: Phase, d: DoserStep, t: Uuid)
    requires DoserEnabled(c, w, p, d) && Settled(w.db.targets, t)
    ensures t in DoserDb(c, w, p, d).targets && DoserDb(c, w, p, d).targets[t] == w.db.targets[t]
  {
  }

  /**
   A settled target stays settled and is never dosed again, as long as no report reopens it from
   an error status.
   */
  lemma {:induction false} SettledForever(c: Config, w: World, steps: seq<Step>, t: Uuid)
    requires Legal(c, w, steps) && Faultless(c, w, steps, Reopen(t))
    requires WellFormed(w.db) && Balanced(c, w.db) && Settled(w.db.targets, t)
    ensures var after := Run(c, w, steps).db;
            Settled(after.targets, t) && after.targets[t].attempts == w.db.targets[t].attempts &&
            CountRows(c, after.outbox, ForTarget(t)) == CountRows(c, w.db.outbox, ForTarget(t))
    decreases |steps|
  {
    if steps != [] {
      StepSoundExactly(c, w, steps[0], Reopen(t));
      SettledNotDosed(c, w, steps[0], t);
      StepKeepsBalance(c, w, steps[0]);
      WellFormedKept(c, w, steps[0]);
      SettledForever(c, Next(c, w, steps[0]), steps[1..], t);
    }
  }

  // ---------------------------------------------------------------- the dosing budget

  /** Doses the configuration still allows in total. */
  ghost function Budget(c: Config, db: Db): int {
    |db.targets| * c.MaxAttempts() - Total(Attempts(db.targets))
  }

  /** Each dose spends exactly one unit of the budget and nothing else changes it. */
  lemma DosesSpendBudget(c: Config, w: World, s: Step)
    requires Enabled(c, w, s) && Balanced(c, w.db)
    ensures var after := Next(c, w, s).db;
            Budget(c, after) == Budget(c, w.db) - (|after.outbox| - |w.db.outbox|) &&
            |w.db.outbox| <= |after.outbox| <= |w.db.outbox| + 1
  {
    StepKeepsBalance(c, w, s);
    match s
    case Doser(i, d) =>
      DoserKeepsIdentity(c, w, w.dosers[i], d);
      assert |DoserDb(c, w, w.dosers[i], d).targets.Keys| == |w.db.targets.Keys|;
      if !d.ClaimTarget? { DoserKeepsRows(c, w, w.dosers[i], d); }
    case Elsewhere(o) =>
      OtherFrame(c, w, o);
      assert |OtherDb(c, w, o).targets.Keys| == |w.db.targets.Keys|;
  }

  /**
   As long as no report revives a target whose attempts are used up, N targets yield at most N * max outbox rows and
   no target more than max, where max is the configured number of attempts, or three if that is below one.
   */
  lemma RowsBounded(c: Config, w: World, steps: seq<Step>)
    requires Initial(c, w) && Legal(c, w, steps) && Faultless(c, w, steps, Overrun)
    ensures var db, max := Run(c, w, steps).db, if c.maxRetryAttempts < 1 then 3 else c.maxRetryAttempts;
            (forall t :: t in db.targets ==> db.targets[t].attempts <= max &&
                                             (db.targets[t].status == RetryPending ==> db.targets[t].attempts < max) &&
                                             CountRows(c, db.outbox, ForTarget(t)) <= max) &&
            |db.outbox| <= |db.targets| * max && Budget(c, db) >= 0
  {
    TripleEntry(c, w, steps);
    InitiallySound(c, w, Overrun);
    RunSoundExactly(c, w, steps, Overrun);
    var db := Run(c, w, steps).db;
    assert Attempts(db.targets).Keys == db.targets.Keys;
    assert |Attempts(db.targets)| == |db.targets|;
    TotalBounded(Attempts(db.targets), c.MaxAttempts());
  }
}
