/** What a doser in each phase knows for sure, although other steps ran since it learnt it. */
module Phases {
  import opened Domain
  import opened Settings
  import opened Tables
  import opened Protocol
  import opened Frames

  predicate InTick(p: Phase) {
    !p.Idle? && !p.Deferring?
  }

  function QuotaKey(c: Config, p: Phase): (Uuid, int)
    requires InTick(p)
  {
    (p.tick.tenant, c.LocalDate(p.tick.at))
  }

  predicate TickSane(now: Time, db: Db, logged: nat, p: Phase) {
    InTick(p) ==>
      p.tick.at <= now && p.tick.mark <= logged &&
      forall a :: a in p.tick.accounts ==> a in db.accounts && db.accounts[a].dailyLimit >= 1
  }

  predicate QuotaSane(c: Config, db: Db, p: Phase) {
    InTick(p) && !p.Listed? ==> QuotaKey(c, p) in db.quotas
  }

  predicate ChoiceSane(c: Config, db: Db, p: Phase) {
    p.Chosen? || p.SlotHeld? ==>
      p.view.tenantId == p.tick.tenant && p.account in p.tick.accounts &&
      p.view.targetId in db.targets && db.targets[p.view.targetId].campaign == p.view.campaignId &&
      (p.SlotHeld? || p.cold ==> c.IsWithinWorkWindow(p.tick.at)) &&
      (p.Chosen? && p.cold ==> c.IsColdInterval(p.interval))
  }

  predicate PhaseSane(c: Config, now: Time, db: Db, logged: nat, p: Phase) {
    TickSane(now, db, logged, p) && QuotaSane(c, db, p) && ChoiceSane(c, db, p)
  }

  predicate AllSane(c: Config, w: World) {
    (forall id :: id in w.db.accountOrder ==> id in w.db.accounts) &&
    forall i :: 0 <= i < |w.dosers| ==> PhaseSane(c, w.now, w.db, |w.log|, w.dosers[i])
  }

  lemma InitiallySane(c: Config, w: World)
    requires Initial(c, w)
    ensures AllSane(c, w)
  {
  }

  /** The knowledge survives any step that keeps rows, terms and quota keys. */
  lemma SanityPersists(c: Config, a: Db, b: Db, now: Time, later: Time, n: nat, m: nat, p: Phase)
    requires PhaseSane(c, now, a, n, p) && SameIdentity(a, b) && a.quotas.Keys <= b.quotas.Keys && now <= later &&
             n <= m
    ensures PhaseSane(c, later, b, m, p)
  {
  }

  lemma NewPhaseSane(c: Config, w: World, p: Phase, d: DoserStep)
    requires DoserEnabled(c, w, p, d) && PhaseSane(c, w.now, w.db, |w.log|, p)
    requires forall id :: id in w.db.accountOrder ==> id in w.db.accounts
    ensures PhaseSane(c, w.now, DoserDb(c, w, p, d), |w.log + DoserEvents(c, w, p, d)|, DoserPhase(c, w, p, d))
  {
    DoserKeepsIdentity(c, w, p, d);
    var q := DoserPhase(c, w, p, d);
    NewTickSane(c, w, p, d);
    NewQuotaSane(c, w, p, d);
    NewChoiceSane(c, w, p, d);
  }

  lemma NewTickSane(c: Config, w: World, p: Phase, d: DoserStep)
    requires DoserEnabled(c, w, p, d) && TickSane(w.now, w.db, |w.log|, p)
    ensures TickSane(w.now, DoserDb(c, w, p, d), |w.log + DoserEvents(c, w, p, d)|, DoserPhase(c, w, p, d))
  {
    DoserKeepsIdentity(c, w, p, d);
    if d.ListAccounts? {
      ListedHaveRoom(w.db, w.db.accountOrder, d.tenant, c.LocalDate(d.at), d.at);
    }
  }

  lemma ListedHaveRoom(db: Db, order: seq<Uuid>, tenant: Uuid, date: int, now: Time)
    ensures forall a :: a in Listing(db, order, tenant, date, now) ==>
            a in db.accounts && db.accounts[a].dailyLimit >= 1
  {
  }

  lemma NewQuotaSane(c: Config, w: World, p: Phase, d: DoserStep)
    requires DoserEnabled(c, w, p, d) && QuotaSane(c, w.db, p)
    ensures QuotaSane(c, DoserDb(c, w, p, d), DoserPhase(c, w, p, d))
    ensures w.db.quotas.Keys <= DoserDb(c, w, p, d).quotas.Keys
  {
  }

  lemma NewChoiceSane(c: Config, w: World, p: Phase, d: DoserStep)
    requires DoserEnabled(c, w, p, d) && ChoiceSane(c, w.db, p)
    ensures ChoiceSane(c, DoserDb(c, w, p, d), DoserPhase(c, w, p, d))
  {
  }

  lemma StepKeepsSane(c: Config, w: World, s: Step)
    requires Enabled(c, w, s) && AllSane(c, w)
    ensures AllSane(c, Next(c, w, s))
  {
    match s
    case Doser(i, d) =>
      DoserKeepsIdentity(c, w, w.dosers[i], d);
      NewQuotaSane(c, w, w.dosers[i], d);
      NewPhaseSane(c, w, w.dosers[i], d);
      forall j | 0 <= j < |w.dosers| && j != i
        ensures PhaseSane(c, w.now, DoserDb(c, w, w.dosers[i], d), |DoserNext(c, w, i, d).log|, w.dosers[j])
      {
        SanityPersists(c, w.db, DoserDb(c, w, w.dosers[i], d), w.now, w.now, |w.log|, |DoserNext(c, w, i, d).log|,
                       w.dosers[j]);
      }
    case Elsewhere(o) =>
      OtherFrame(c, w, o);
      var v := OtherNext(c, w, o);
      forall j | 0 <= j < |w.dosers| ensures PhaseSane(c, v.now, v.db, |v.log|, w.dosers[j]) {
        SanityPersists(c, w.db, v.db, w.now, v.now, |w.log|, |v.log|, w.dosers[j]);
      }
  }
}
