/** Attempts, account usage and outbox rows are three records of the same events. */
module Conservation {
  import opened Domain
  import opened Settings
  import opened Tables
  import opened Protocol
  import opened Counting
  import opened Frames

  ghost predicate AttemptsBalance(c: Config, db: Db) {
    forall t :: t in db.targets ==> CountRows(c, db.outbox, ForTarget(t)) == db.targets[t].attempts
  }

  ghost predicate UsageBalances(c: Config, db: Db) {
    forall a, d :: CountRows(c, db.outbox, ForUsage(a, d)) == Used(db, a, d)
  }

  ghost predicate TotalsBalance(db: Db) {
    Total(Attempts(db.targets)) == |db.outbox| && Total(db.usage) == |db.outbox|
  }

  ghost predicate Balanced(c: Config, db: Db) {
    AttemptsBalance(c, db) && UsageBalances(c, db) && TotalsBalance(db)
  }

  lemma ClaimTotals(db: Db, now: Time, target: Uuid, tenant: Uuid, account: Uuid, ev: string, task: SendTask, at: Time)
    requires TotalsBalance(db)
    ensures TotalsBalance(Claim(db, now, target, tenant, account, ev, task, at))
  {
    if ClaimOutcomeOf(db, now, target, account, at) == Dosed {
      var after := Claim(db, now, target, tenant, account, ev, task, at);
      assert Attempts(after.targets) == Attempts(db.targets)[target := db.targets[target].attempts + 1];
      TotalUpdate(Attempts(db.targets), target, db.targets[target].attempts + 1);
      TotalUpdate(db.usage, (account, UtcDate(at)), Used(db, account, UtcDate(at)) + 1);
    }
  }

  lemma ClaimCounts(c: Config, db: Db, now: Time, target: Uuid, tenant: Uuid, account: Uuid, ev: string,
                    task: SendTask, at: Time)
    requires AttemptsBalance(c, db) && UsageBalances(c, db) && task.taskId == target
    ensures AttemptsBalance(c, Claim(db, now, target, tenant, account, ev, task, at))
    ensures UsageBalances(c, Claim(db, now, target, tenant, account, ev, task, at))
  {
    if ClaimOutcomeOf(db, now, target, account, at) == Dosed {
      CountRowsAppendAll(c, db.outbox, OutboxRow(ev, task, tenant, account, at, false));
    }
  }

  lemma SameRowsBalance(c: Config, a: Db, b: Db)
    requires SameRows(a, b) && Balanced(c, a)
    ensures Balanced(c, b)
  {
    assert Attempts(a.targets) == Attempts(b.targets);
    forall k ensures CountRows(c, b.outbox, k) == CountRows(c, a.outbox, k) {
      CountRowsMarked(c, a.outbox, b.outbox, k);
    }
  }

  lemma StepKeepsBalance(c: Config, w: World, s: Step)
    requires Enabled(c, w, s) && Balanced(c, w.db)
    ensures Balanced(c, Next(c, w, s).db)
  {
    match s
    case Doser(i, d) =>
      var p := w.dosers[i];
      if d.ClaimTarget? {
        var ev, task := EventFor(p.view, p.SlotHeld?), BuildTask(p.view, p.account, p.SlotHeld?);
        ClaimTotals(w.db, w.now, p.view.targetId, p.view.tenantId, p.account, ev, task, p.tick.at);
        ClaimCounts(c, w.db, w.now, p.view.targetId, p.view.tenantId, p.account, ev, task, p.tick.at);
      } else {
        DoserKeepsRows(c, w, p, d);
        SameRowsBalance(c, w.db, DoserDb(c, w, p, d));
      }
    case Elsewhere(o) =>
      OtherFrame(c, w, o);
      SameRowsBalance(c, w.db, OtherDb(c, w, o));
  }

  lemma InitiallyBalanced(c: Config, w: World)
    requires Initial(c, w)
    ensures Balanced(c, w.db)
  {
    TotalOfZeros(Attempts(w.db.targets));
    TotalOfZeros(w.db.usage);
  }

  lemma {:induction false} BalancedAlong(c: Config, w: World, steps: seq<Step>)
    requires Legal(c, w, steps) && Balanced(c, w.db)
    ensures Balanced(c, Run(c, w, steps).db)
    decreases |steps|
  {
    if steps != [] {
      StepKeepsBalance(c, w, steps[0]);
      BalancedAlong(c, Next(c, w, steps[0]), steps[1..]);
    }
  }

  /**
   Triple-entry conservation: after any interleaving, each target has as many outbox rows as
   attempts, each account and UTC day as many as its usage, and both totals are the row count.
   */
  lemma TripleEntry(c: Config, w: World, steps: seq<Step>)
    requires Initial(c, w) && Legal(c, w, steps)
    ensures var db := Run(c, w, steps).db;
            (forall t :: t in db.targets ==> CountRows(c, db.outbox, ForTarget(t)) == db.targets[t].attempts) &&
            (forall a, d :: CountRows(c, db.outbox, ForUsage(a, d)) == Used(db, a, d)) &&
            Total(Attempts(db.targets)) == |db.outbox| == Total(db.usage)
  {
    InitiallyBalanced(c, w);
    BalancedAlong(c, w, steps);
  }
}
