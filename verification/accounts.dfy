/** Sender accounts: the daily limit is never exceeded and a known cooldown is always respected. */
module AccountSafety {
  import opened Domain
  import opened Settings
  import opened Tables
  import opened Protocol
  import opened Frames
  import opened Phases
  import opened Counting
  import Conservation

  // ---------------------------------------------------------------- daily limit

  predicate UsageWithinLimit(db: Db) {
    forall k :: k in db.usage ==> k.0 in db.accounts && db.usage[k] <= db.accounts[k.0].dailyLimit
  }

  lemma ClaimKeepsUsage(c: Config, w: World, p: Phase)
    requires DoserEnabled(c, w, p, ClaimTarget) && UsageWithinLimit(w.db)
    requires TickSane(w.now, w.db, |w.log|, p) && ChoiceSane(c, w.db, p)
    ensures UsageWithinLimit(DoserDb(c, w, p, ClaimTarget))
  {
  }

  lemma SameRowsKeepUsage(a: Db, b: Db)
    requires UsageWithinLimit(a) && SameRows(a, b) && SameTerms(a.accounts, b.accounts)
    ensures UsageWithinLimit(b)
  {
  }

  lemma StepKeepsUsage(c: Config, w: World, s: Step)
    requires Enabled(c, w, s) && AllSane(c, w) && UsageWithinLimit(w.db)
    ensures UsageWithinLimit(Next(c, w, s).db)
  {
    match s
    case Doser(i, d) =>
      if d.ClaimTarget? {
        ClaimKeepsUsage(c, w, w.dosers[i]);
      } else {
        DoserKeepsRows(c, w, w.dosers[i], d);
        DoserKeepsIdentity(c, w, w.dosers[i], d);
        SameRowsKeepUsage(w.db, DoserDb(c, w, w.dosers[i], d));
      }
    case Elsewhere(o) =>
      OtherFrame(c, w, o);
      SameRowsKeepUsage(w.db, OtherDb(c, w, o));
  }

  lemma {:induction false} UsageAlong(c: Config, w: World, steps: seq<Step>)
    requires Legal(c, w, steps) && AllSane(c, w) && UsageWithinLimit(w.db)
    ensures UsageWithinLimit(Run(c, w, steps).db)
    decreases |steps|
  {
    if steps != [] {
      StepKeepsSane(c, w, steps[0]);
      StepKeepsUsage(c, w, steps[0]);
      UsageAlong(c, Next(c, w, steps[0]), steps[1..]);
    }
  }

  /**
   No account's usage of a UTC day exceeds its daily limit, although the day's first row is
   inserted without the limit check and the listing looks at the local day's usage.
   */
  lemma DailyLimitRespected(c: Config, w: World, steps: seq<Step>, account: Uuid, utcDate: int)
    requires Initial(c, w) && Legal(c, w, steps)
    ensures var db := Run(c, w, steps).db;
            Used(db, account, utcDate) > 0 ==>
              account in db.accounts && Used(db, account, utcDate) <= db.accounts[account].dailyLimit
  {
    InitiallySane(c, w);
    UsageAlong(c, w, steps);
  }

  // ---------------------------------------------------------------- disabled accounts

  /** Disabled, and offered to no doser by an earlier listing. */
  predicate OutOfUse(db: Db, dosers: seq<Phase>, account: Uuid) {
    account in db.accounts && db.accounts[account].status == Disabled &&
    forall i :: 0 <= i < |dosers| && InTick(dosers[i]) ==> account !in dosers[i].tick.accounts
  }

  lemma DoserSparesDisabled(c: Config, w: World, p: Phase, d: DoserStep, account: Uuid)
    requires DoserEnabled(c, w, p, d) && ChoiceSane(c, w.db, p)
    requires account in w.db.accounts && w.db.accounts[account].status == Disabled
    requires InTick(p) ==> account !in p.tick.accounts
    ensures var q := DoserPhase(c, w, p, d); InTick(q) ==> account !in q.tick.accounts
    ensures forall date :: Used(DoserDb(c, w, p, d), account, date) == Used(w.db, account, date)
  {
    if !d.ClaimTarget? { DoserKeepsRows(c, w, p, d); }
  }

  lemma StepSparesDisabled(c: Config, w: World, s: Step, account: Uuid)
    requires Enabled(c, w, s) && AllSane(c, w) && OutOfUse(w.db, w.dosers, account)
    ensures OutOfUse(Next(c, w, s).db, Next(c, w, s).dosers, account)
    ensures forall date :: Used(Next(c, w, s).db, account, date) == Used(w.db, account, date)
  {
    match s
    case Doser(i, d) =>
      DoserSparesDisabled(c, w, w.dosers[i], d, account);
      DoserKeepsIdentity(c, w, w.dosers[i], d);
    case Elsewhere(o) =>
      OtherFrame(c, w, o);
      if o.Report? { ReportFrame(c, w.db, w.now, o.call, o.chosen); }
  }

  /** From any state on, such an account stays disabled and is given no dose. */
  lemma {:induction false} DisabledAlong(c: Config, w: World, steps: seq<Step>, account: Uuid)
    requires Legal(c, w, steps) && AllSane(c, w) && OutOfUse(w.db, w.dosers, account)
    ensures OutOfUse(Run(c, w, steps).db, Run(c, w, steps).dosers, account)
    ensures forall date :: Used(Run(c, w, steps).db, account, date) == Used(w.db, account, date)
    decreases |steps|
  {
    if steps != [] {
      StepKeepsSane(c, w, steps[0]);
      StepSparesDisabled(c, w, steps[0], account);
      DisabledAlong(c, Next(c, w, steps[0]), steps[1..], account);
    }
  }

  /** An account disabled at the start stays disabled along every run, and no outbox row is ever its own. */
  lemma DisabledIsNeverDosed(c: Config, w: World, steps: seq<Step>, account: Uuid)
    requires Initial(c, w) && Legal(c, w, steps)
    requires account in w.db.accounts && w.db.accounts[account].status == Disabled
    ensures var db := Run(c, w, steps).db;
            (forall i :: 0 <= i < |db.outbox| ==> db.outbox[i].account != account) &&
            account in db.accounts && db.accounts[account].status == Disabled
  {
    InitiallySane(c, w);
    DisabledAlong(c, w, steps, account);
    Conservation.TripleEntry(c, w, steps);
    var db := Run(c, w, steps).db;
    forall i | 0 <= i < |db.outbox| ensures db.outbox[i].account != account {
      var k := ForUsage(account, UtcDate(db.outbox[i].publishAt));
      CountedRows(c, db.outbox, k);
      assert Used(db, account, k.utcDate) == Used(w.db, account, k.utcDate) == 0;
    }
  }

  // ---------------------------------------------------------------- cooldown

  predicate IsCooling(e: Event, account: Uuid) {
    e.CoolEvent? && e.account == account
  }

  /** Every logged cooldown is still in force in the table, possibly extended. */
  predicate CoolingStored(accounts: map<Uuid, Account>, log: seq<Event>) {
    forall i :: 0 <= i < |log| && log[i].CoolEvent? ==>
      log[i].account in accounts &&
      var a := accounts[log[i].account];
      a.status == Cooldown && a.cooldownUntil.Some? && a.cooldownUntil.value >= log[i].until
  }

  predicate CoolingNotAhead(c: Config, log: seq<Event>, t: Time) {
    forall i :: 0 <= i < |log| && log[i].CoolEvent? ==> log[i].until <= t + c.AccountCooldown()
  }

  predicate FailureSane(c: Config, log: seq<Event>, now: Time, failure: Option<Failure>) {
    failure.Some? ==> failure.value.readAt <= now && CoolingNotAhead(c, log, failure.value.readAt)
  }

  /** The accounts a tick works with had outlived every cooldown logged before their listing. */
  predicate TickRespects(log: seq<Event>, p: Phase) {
    InTick(p) ==>
      p.tick.mark <= |log| &&
      forall i :: 0 <= i < p.tick.mark && log[i].CoolEvent? && log[i].account in p.tick.accounts ==>
      log[i].until <= p.tick.at
  }

  predicate DoseRespects(log: seq<Event>, j: nat)
    requires j < |log| && log[j].DoseEvent?
  {
    log[j].mark <= j && log[j].tickAt <= log[j].time &&
    forall i :: 0 <= i < log[j].mark && IsCooling(log[i], log[j].account) ==> log[i].until <= log[j].tickAt
  }

  predicate DosesRespect(log: seq<Event>) {
    forall j :: 0 <= j < |log| && log[j].DoseEvent? ==> DoseRespects(log, j)
  }

  predicate CoolingInv(c: Config, w: World) {
    CoolingStored(w.db.accounts, w.log) && CoolingNotAhead(c, w.log, w.now) &&
    FailureSane(c, w.log, w.now, w.failure) && DosesRespect(w.log) &&
    forall i :: 0 <= i < |w.dosers| ==> TickRespects(w.log, w.dosers[i])
  }

  lemma AppendNoCooling(c: Config, w: World, es: seq<Event>, now: Time)
    requires CoolingInv(c, w) && w.now <= now
    requires forall i :: 0 <= i < |es| ==> !es[i].CoolEvent? && !es[i].DoseEvent?
    ensures CoolingStored(w.db.accounts, w.log + es) && CoolingNotAhead(c, w.log + es, now)
    ensures FailureSane(c, w.log + es, now, w.failure) && DosesRespect(w.log + es)
    ensures forall i :: 0 <= i < |w.dosers| ==> TickRespects(w.log + es, w.dosers[i])
  {
    var log := w.log + es;
    forall j | 0 <= j < |log| && log[j].DoseEvent? ensures DoseRespects(log, j) {
      assert j < |w.log| && DoseRespects(w.log, j);
    }
  }

  lemma AppendDose(c: Config, w: World, p: Phase)
    requires DoserEnabled(c, w, p, ClaimTarget) && ClaimOf(w, p) == Dosed && CoolingInv(c, w) && TickRespects(w.log, p)
    requires TickSane(w.now, w.db, |w.log|, p) && ChoiceSane(c, w.db, p)
    ensures var log := w.log + DoserEvents(c, w, p, ClaimTarget);
            CoolingStored(w.db.accounts, log) && CoolingNotAhead(c, log, w.now) &&
            FailureSane(c, log, w.now, w.failure) && DosesRespect(log) &&
            forall i :: 0 <= i < |w.dosers| ==> TickRespects(log, w.dosers[i])
  {
    var log := w.log + DoserEvents(c, w, p, ClaimTarget);
    forall j | 0 <= j < |log| && log[j].DoseEvent? ensures DoseRespects(log, j) {
      if j < |w.log| { assert DoseRespects(w.log, j); }
    }
  }

  lemma ListingRespects(c: Config, w: World, p: Phase, tenant: Uuid, at: Time)
    requires DoserEnabled(c, w, p, ListAccounts(tenant, at)) && CoolingStored(w.db.accounts, w.log)
    ensures TickRespects(w.log, DoserPhase(c, w, p, ListAccounts(tenant, at)))
  {
    var q := DoserPhase(c, w, p, ListAccounts(tenant, at));
    if q.Listed? {
      forall i | 0 <= i < q.tick.mark && w.log[i].CoolEvent? && w.log[i].account in q.tick.accounts
        ensures w.log[i].until <= at
      {
        assert Listable(w.db, tenant, c.LocalDate(at), at, w.log[i].account);
      }
    }
  }

  lemma NewPhaseRespects(c: Config, w: World, p: Phase, d: DoserStep)
    requires DoserEnabled(c, w, p, d) && TickRespects(w.log, p) && CoolingStored(w.db.accounts, w.log)
    ensures TickRespects(w.log + DoserEvents(c, w, p, d), DoserPhase(c, w, p, d))
  {
    if d.ListAccounts? {
      ListingRespects(c, w, p, d.tenant, d.at);
      assert w.log + DoserEvents(c, w, p, d) == w.log;
    } else {
      var q := DoserPhase(c, w, p, d);
      assert InTick(q) ==> q.tick == p.tick;
    }
  }

  lemma DoserKeepsCooling(c: Config, w: World, i: nat, d: DoserStep)
    requires i < |w.dosers| && DoserEnabled(c, w, w.dosers[i], d) && CoolingInv(c, w)
    requires TickSane(w.now, w.db, |w.log|, w.dosers[i]) && ChoiceSane(c, w.db, w.dosers[i])
    ensures CoolingInv(c, DoserNext(c, w, i, d))
  {
    var p := w.dosers[i];
    DoserKeepsIdentity(c, w, p, d);
    NewPhaseRespects(c, w, p, d);
    if d.ClaimTarget? && ClaimOf(w, p) == Dosed {
      AppendDose(c, w, p);
    } else {
      AppendNoCooling(c, w, DoserEvents(c, w, p, d), w.now);
    }
  }

  lemma CooldownExtends(c: Config, accounts: map<Uuid, Account>, log: seq<Event>, account: Uuid, readAt: Time)
    requires CoolingStored(accounts, log) && CoolingNotAhead(c, log, readAt) && account in accounts
    ensures var until := readAt + c.AccountCooldown();
            CoolingStored(accounts[account := accounts[account].(status := Cooldown, cooldownUntil := Some(until))],
                          log + [CoolEvent(account, until)]) &&
            CoolingNotAhead(c, log + [CoolEvent(account, until)], readAt)
  {
  }

  lemma CoolEventsExtend(c: Config, db: Db, f: Failure, log: seq<Event>)
    requires CoolingStored(db.accounts, log) && CoolingNotAhead(c, log, f.readAt)
    ensures CoolingStored(FailureDb(c, db, f).accounts, log + CoolEvents(c, db, f))
    ensures CoolingNotAhead(c, log + CoolEvents(c, db, f), f.readAt)
  {
    if CoolsDown(db, f.target, f.account, f.code, CooldownFor(c, f), c.maxRetryAttempts) {
      CooldownExtends(c, db.accounts, log, f.account, f.readAt);
    } else {
      assert log + [] == log;
    }
  }

  lemma OutcomeExtends(c: Config, db: Db, f: Failure, accounts: map<Uuid, Account>, log: seq<Event>)
    requires CoolingStored(accounts, log) && CoolingNotAhead(c, log, f.readAt)
    ensures CoolingStored(accounts, log + OutcomeEvents(c, db, f)) &&
            CoolingNotAhead(c, log + OutcomeEvents(c, db, f), f.readAt)
  {
  }

  lemma FailureExtends(c: Config, db: Db, f: Failure, log: seq<Event>)
    requires CoolingStored(db.accounts, log) && CoolingNotAhead(c, log, f.readAt)
    ensures CoolingStored(FailureDb(c, db, f).accounts, log + FailureEvents(c, db, f))
    ensures CoolingNotAhead(c, log + FailureEvents(c, db, f), f.readAt)
  {
    CoolEventsExtend(c, db, f, log);
    OutcomeExtends(c, db, f, FailureDb(c, db, f).accounts, log + CoolEvents(c, db, f));
    assert log + FailureEvents(c, db, f) == (log + CoolEvents(c, db, f)) + OutcomeEvents(c, db, f);
  }

  lemma FailureKeepsDoses(c: Config, w: World, es: seq<Event>)
    requires CoolingInv(c, w) && forall i :: 0 <= i < |es| ==> !es[i].DoseEvent?
    ensures DosesRespect(w.log + es)
    ensures forall i :: 0 <= i < |w.dosers| ==> TickRespects(w.log + es, w.dosers[i])
  {
    var log := w.log + es;
    forall j | 0 <= j < |log| && log[j].DoseEvent? ensures DoseRespects(log, j) {
      assert j < |w.log| && DoseRespects(w.log, j);
    }
  }

  lemma OtherKeepsCooling(c: Config, w: World, o: OtherStep)
    requires OtherEnabled(c, w, o) && CoolingInv(c, w)
    ensures CoolingInv(c, OtherNext(c, w, o))
  {
    if o.ApplyFailure? {
      FailureExtends(c, w.db, w.failure.value, w.log);
      FailureKeepsDoses(c, w, FailureEvents(c, w.db, w.failure.value));
    } else {
      if o.Report? { ReportFrame(c, w.db, w.now, o.call, o.chosen); }
      AppendNoCooling(c, w, OtherEvents(c, w, o), OtherNext(c, w, o).now);
    }
  }

  lemma OthersKeepAccounts(c: Config, w: World, o: OtherStep)
    requires OtherEnabled(c, w, o) && !o.ApplyFailure?
    ensures OtherDb(c, w, o).accounts == w.db.accounts
  {
    if o.Report? { ReportFrame(c, w.db, w.now, o.call, o.chosen); }
  }

  lemma OnlyFailuresTouchAccounts(c: Config, w: World, s: Step)
    requires Enabled(c, w, s) && s != Elsewhere(ApplyFailure)
    ensures Next(c, w, s).db.accounts == w.db.accounts
  {
    match s
    case Doser(i, d) => DoserKeepsIdentity(c, w, w.dosers[i], d);
    case Elsewhere(o) => OthersKeepAccounts(c, w, o);
  }

  /** Account rows change only by cooldowns: of one account not disabled, logged with the end its row now has. */
  lemma CooldownsAreLogged(c: Config, w: World, s: Step) returns (account: Uuid, until: Time)
    requires Enabled(c, w, s) && Next(c, w, s).db.accounts != w.db.accounts
    ensures var after := Next(c, w, s);
            account in w.db.accounts && w.db.accounts[account].status != Disabled &&
            after.db.accounts ==
            w.db.accounts[account := w.db.accounts[account].(status := Cooldown, cooldownUntil := Some(until))] &&
            |after.log| > |w.log| && after.log[|w.log|] == CoolEvent(account, until)
  {
    if s != Elsewhere(ApplyFailure) {
      OnlyFailuresTouchAccounts(c, w, s);
      assert false;
    }
    account, until := FailureCools(c, w);
  }

  lemma FailureCools(c: Config, w: World) returns (account: Uuid, until: Time)
    requires w.failure.Some? && FailureDb(c, w.db, w.failure.value).accounts != w.db.accounts
    ensures var after := OtherNext(c, w, ApplyFailure);
            account in w.db.accounts && w.db.accounts[account].status != Disabled &&
            after.db.accounts ==
            w.db.accounts[account := w.db.accounts[account].(status := Cooldown, cooldownUntil := Some(until))] &&
            |after.log| > |w.log| && after.log[|w.log|] == CoolEvent(account, until)
  {
    var f := w.failure.value;
    account, until := f.account, f.readAt + c.AccountCooldown();
    CoolingIsLogged(c, w.db, f);
    assert OtherNext(c, w, ApplyFailure).log == w.log + FailureEvents(c, w.db, f);
  }

  lemma CoolingIsLogged(c: Config, db: Db, f: Failure)
    requires FailureDb(c, db, f).accounts != db.accounts
    ensures var until := f.readAt + c.AccountCooldown();
            f.account in db.accounts && db.accounts[f.account].status != Disabled &&
            FailureDb(c, db, f).accounts ==
            db.accounts[f.account := db.accounts[f.account].(status := Cooldown, cooldownUntil := Some(until))] &&
            FailureEvents(c, db, f) != [] && FailureEvents(c, db, f)[0] == CoolEvent(f.account, until)
  {
  }

  lemma {:induction false} CoolingAlong(c: Config, w: World, steps: seq<Step>)
    requires Legal(c, w, steps) && AllSane(c, w) && CoolingInv(c, w)
    ensures CoolingInv(c, Run(c, w, steps))
    decreases |steps|
  {
    if steps != [] {
      StepKeepsSane(c, w, steps[0]);
      match steps[0] {
        case Doser(i, d) => DoserKeepsCooling(c, w, i, d);
        case Elsewhere(o) => OtherKeepsCooling(c, w, o);
      }
      CoolingAlong(c, Next(c, w, steps[0]), steps[1..]);
    }
  }

  /**
   A cooldown applied before a tick listed its accounts binds that tick: whichever way it picked
   the account, its clock, its publish time and the claim all come after the cooldown's end.
   */
  lemma CooldownRespected(c: Config, w: World, steps: seq<Step>, i: nat, j: nat)
    requires Initial(c, w) && Legal(c, w, steps)
    requires var log := Run(c, w, steps).log;
             i < j < |log| && log[j].DoseEvent? && IsCooling(log[i], log[j].account) && i < log[j].mark
    ensures var log := Run(c, w, steps).log;
            log[i].until <= log[j].tickAt <= log[j].time
  {
    InitiallySane(c, w);
    CoolingAlong(c, w, steps);
    assert DoseRespects(Run(c, w, steps).log, j);
  }

  /**
   When no cooldown of the account was applied between listing and claim, as in an atomic tick,
   every earlier cooldown of the account has ended.
   */
  lemma NoDoseDuringCooldown(c: Config, w: World, steps: seq<Step>, i: nat, j: nat)
    requires Initial(c, w) && Legal(c, w, steps)
    requires var log := Run(c, w, steps).log;
             i < j < |log| && log[j].DoseEvent? && IsCooling(log[i], log[j].account) &&
             forall m: nat :: log[j].mark <= m < j ==> !IsCooling(log[m], log[j].account)
    ensures Run(c, w, steps).log[j].time >= Run(c, w, steps).log[i].until
  {
    CooldownRespected(c, w, steps, i, j);
  }
}
