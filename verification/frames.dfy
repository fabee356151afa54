/** What no step, or all but a few steps, can change. */
module Frames {
  import opened Domain
  import opened Settings
  import opened Tables
  import opened Protocol

  predicate SameHomes(a: map<Uuid, Target>, b: map<Uuid, Target>) {
    a.Keys == b.Keys && forall id :: id in a ==> b[id].campaign == a[id].campaign && b[id].phone == a[id].phone
  }

  predicate SameAttempts(a: map<Uuid, Target>, b: map<Uuid, Target>) {
    a.Keys == b.Keys && forall id :: id in a ==> b[id].attempts == a[id].attempts
  }

  predicate SameTenants(a: map<Uuid, Campaign>, b: map<Uuid, Campaign>) {
    a.Keys == b.Keys && forall id :: id in a ==> b[id].tenant == a[id].tenant
  }

  predicate SameTerms(a: map<Uuid, Account>, b: map<Uuid, Account>) {
    a.Keys == b.Keys &&
    forall id :: id in a ==> b[id].tenant == a[id].tenant && b[id].dailyLimit == a[id].dailyLimit
  }

  /** No step invents, drops or re-homes a row. */
  predicate SameIdentity(a: Db, b: Db) {
    SameHomes(a.targets, b.targets) && SameTenants(a.campaigns, b.campaigns) &&
    SameTerms(a.accounts, b.accounts) && a.accountOrder == b.accountOrder
  }

  /** The parts only a claim may change, but for the marks on outbox rows. */
  predicate SameRows(a: Db, b: Db) {
    OnlyMarked(a.outbox, b.outbox) && a.usage == b.usage && SameAttempts(a.targets, b.targets)
  }

  lemma DoserKeepsIdentity(c: Config, w: World, p: Phase, d: DoserStep)
    requires DoserEnabled(c, w, p, d)
    ensures SameIdentity(w.db, DoserDb(c, w, p, d))
    ensures DoserDb(c, w, p, d).accounts == w.db.accounts && DoserDb(c, w, p, d).campaigns == w.db.campaigns
  {
  }

  lemma DoserKeepsRows(c: Config, w: World, p: Phase, d: DoserStep)
    requires DoserEnabled(c, w, p, d) && !d.ClaimTarget?
    ensures SameRows(w.db, DoserDb(c, w, p, d)) && DoserDb(c, w, p, d).outbox == w.db.outbox
  {
  }

  lemma DoserKeepsQuotas(c: Config, w: World, p: Phase, d: DoserStep)
    requires DoserEnabled(c, w, p, d) && !d.EnsureQuotaRow? && !d.ReserveSlot? && !d.CountWarm?
    ensures DoserDb(c, w, p, d).quotas == w.db.quotas
  {
  }

  lemma FailureFrame(c: Config, db: Db, f: Failure)
    ensures SameIdentity(db, FailureDb(c, db, f)) && SameRows(db, FailureDb(c, db, f))
    ensures FailureDb(c, db, f).quotas == db.quotas && FailureDb(c, db, f).campaigns == db.campaigns
  {
  }

  lemma UpdateFrame(db: Db, target: Uuid, status: TaskStatus, err: Option<string>, sentAt: Option<Time>, now: Time)
    ensures var b := UpdateTargetStatus(db, target, status, err, sentAt, now);
            SameIdentity(db, b) && SameRows(db, b)
  {
  }

  lemma UnknownFrame(db: Db, target: Uuid, code: string, message: string)
    ensures var b := MarkDeliveryUnknown(db, target, code, message);
            SameIdentity(db, b) && SameRows(db, b) && b.campaigns == db.campaigns
  {
  }

  lemma ReplyFrame(db: Db, campaign: Uuid, phone: Phone, text: string, at: Time, unsub: bool, chosen: Uuid)
    ensures var b := RegisterReply(db, campaign, phone, text, at, unsub, chosen);
            SameIdentity(db, b) && SameRows(db, b)
  {
  }

  lemma ReportFrame(c: Config, db: Db, now: Time, call: RepoCall, chosen: Uuid)
    ensures var b := ReportDb(c, db, now, call, chosen);
            SameIdentity(db, b) && SameRows(db, b) && b.quotas == db.quotas && b.accounts == db.accounts
  {
    match call
    case Update(target, status, err, sentAt) => UpdateFrame(db, target, status, err, sentAt, now);
    case MarkUnknown(target, code, message) => UnknownFrame(db, target, code, message);
    case Register(campaign, phone, text, at) => ReplyFrame(db, campaign, phone, text, at, c.IsUnsubscribeReply(text),
                                                           chosen);
    case _ =>
  }

  lemma OtherFrame(c: Config, w: World, o: OtherStep)
    requires OtherEnabled(c, w, o)
    ensures SameIdentity(w.db, OtherDb(c, w, o)) && SameRows(w.db, OtherDb(c, w, o))
    ensures OtherDb(c, w, o).quotas == w.db.quotas
  {
    match o
    case ApplyFailure => FailureFrame(c, w.db, w.failure.value);
    case Report(call, chosen) => ReportFrame(c, w.db, w.now, call, chosen);
    case _ =>
  }

  // ---------------------------------------------------------------- what only grows

  /** No block is ever taken back. */
  lemma BlockedGrows(c: Config, w: World, s: Step)
    requires Enabled(c, w, s)
    ensures w.db.blocked <= Next(c, w, s).db.blocked
  {
    match s
    case Doser(i, d) => DoserKeepsBlocked(c, w, w.dosers[i], d);
    case Elsewhere(o) => OtherGrowsBlocked(c, w, o);
  }

  lemma DoserKeepsBlocked(c: Config, w: World, p: Phase, d: DoserStep)
    requires DoserEnabled(c, w, p, d)
    ensures DoserDb(c, w, p, d).blocked == w.db.blocked
  {
  }

  lemma OtherGrowsBlocked(c: Config, w: World, o: OtherStep)
    requires OtherEnabled(c, w, o)
    ensures w.db.blocked <= OtherDb(c, w, o).blocked
  {
  }

  /** Rows are only appended, and only pending ones; apart from marking, no step touches one. */
  lemma RowsOnlyAppended(c: Config, w: World, s: Step)
    requires Enabled(c, w, s) && !(s.Elsewhere? && s.o.MarkRows?)
    ensures var a, b := w.db.outbox, Next(c, w, s).db.outbox;
            |a| <= |b| && b[..|a|] == a && forall i :: |a| <= i < |b| ==> !b[i].processed
  {
    match s
    case Doser(i, d) => DoserAppendsRows(c, w, w.dosers[i], d);
    case Elsewhere(o) => OtherKeepsRows(c, w, o);
  }

  lemma DoserAppendsRows(c: Config, w: World, p: Phase, d: DoserStep)
    requires DoserEnabled(c, w, p, d)
    ensures var a, b := w.db.outbox, DoserDb(c, w, p, d).outbox;
            |a| <= |b| && b[..|a|] == a && forall i :: |a| <= i < |b| ==> !b[i].processed
  {
    if !d.ClaimTarget? { DoserKeepsRows(c, w, p, d); }
  }

  lemma OtherKeepsRows(c: Config, w: World, o: OtherStep)
    requires OtherEnabled(c, w, o) && !o.MarkRows?
    ensures OtherDb(c, w, o).outbox == w.db.outbox
  {
  }
}
