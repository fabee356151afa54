/** The outbox worker: at-least-once publication, filters and routing. */
module Outbox {
  import opened Domain
  import opened Settings
  import opened Tables
  import Protocol
  import Results
  import Blocklist

  // ---------------------------------------------------------------- routing

  function AccountRoutingKey(account: string): string {
    "account." + account
  }

  function AccountSendQueue(account: string): string {
    "tasks.messages.send.account." + account
  }

  /** The row's account column, or the texts in the payload; `parses` says whether the latter is a UUID. */
  function ResolveTenantAccountID(row: Uuid, payloadTenantAccount: string, payloadAccount: string,
                                  parses: bool): string {
    if row != NIL then UuidText(row)
    else if TrimSpace(payloadTenantAccount) != "" then TrimSpace(payloadTenantAccount)
    else if TrimSpace(payloadAccount) != "" && parses then TrimSpace(payloadAccount)
    else ""
  }

  lemma RoutingKeyIsOwn(a: Uuid, b: Uuid)
    ensures AccountRoutingKey(UuidText(a)) == AccountRoutingKey(UuidText(b)) <==> a == b
    ensures AccountSendQueue(UuidText(a)) == AccountSendQueue(UuidText(b)) <==> a == b
  {
    UuidTextInjective(a, b);
    assert AccountRoutingKey(UuidText(a))[8..] == UuidText(a) && AccountRoutingKey(UuidText(b))[8..] == UuidText(b);
    assert AccountSendQueue(UuidText(a))[28..] == UuidText(a) && AccountSendQueue(UuidText(b))[28..] == UuidText(b);
  }

  /** Rows written by the doser name one account three times. */
  predicate FromDoser(r: OutboxRow) {
    r.task.tenantAccountId == r.account && r.task.accountId == r.account && r.account != NIL &&
    r.task.contactType in {"cold", "warm"} && r.tenant == r.task.tenantId
  }

  function AccountText(r: OutboxRow): string {
    ResolveTenantAccountID(r.account, UuidText(r.task.tenantAccountId), UuidText(r.task.accountId), true)
  }

  /**
   A claim writes such a row for a selected target: addressed to that target's phone and campaign,
   resolved by the worker to the claimed account, and using the known chat exactly when it is warm.
   */
  lemma DosedRowsRoute(db: Db, now: Time, tenant: Uuid, id: Uuid, account: Uuid, cold: bool, at: Time)
    requires Selectable(db, now, tenant, !cold, id) && account != NIL &&
             ClaimOutcomeOf(db, now, id, account, at) == Dosed
    ensures var v := PendingView(db, !cold, id);
            var after := Claim(db, now, id, v.tenantId, account, EventFor(v, cold), BuildTask(v, account, cold), at);
            |after.outbox| == |db.outbox| + 1 &&
            var r := after.outbox[|db.outbox|];
            FromDoser(r) && AccountText(r) == UuidText(account) && after.targets[id].account == Some(account) &&
            r.task.taskId == id && r.task.phone == db.targets[id].phone &&
            r.task.campaignId == db.targets[id].campaign &&
            r.tenant == tenant && r.publishAt == at && !r.processed &&
            (r.task.contactType == "cold" <==> cold) &&
            (r.task.useChatId <==> !cold) && (r.eventType == EVENT_SEND_EXISTING_CHAT <==> !cold) &&
            (r.task.useChatId ==> r.task.chatId == db.mappings[KeyOf(db, db.targets[id])].chatId != "")
  {
    assert "warm"[0] != "cold"[0];
    assert |EVENT_SEND| != |EVENT_SEND_EXISTING_CHAT|;
  }

  // ---------------------------------------------------------------- one message

  datatype Publish = PublishError | Unconfirmed | ConfirmError | Nacked | Acked

  /**
   What happens around one message: the blocklist's writers act before it, the clock is read, and the
   broker takes or refuses what is published.
   */
  datatype Broker = Broker(writers: seq<Blocklist.Action>, now: Time, resultSent: bool, queueReady: bool,
                           publish: Publish)

  /** A delivery, with the cache as it was when the recipient was looked up. */
  datatype Delivery =
    | ToAccount(row: nat, routingKey: string, queue: string, task: SendTask, at: Time, cache: set<string>,
                publish: Publish)
    | BlockedResult(row: nat, task: SendTask, cache: set<string>, sent: bool)

  predicate IsColdText(contactType: string) {
    ToUpper(contactType) == "COLD"
  }

  /** A message without a phone is never looked up. */
  predicate IsBlocked(task: SendTask, cache: set<string>) {
    task.phone.digits != "" && Blocklist.Key(task.tenantId, task.phone) in cache
  }

  /** A blocked recipient's message is answered, a cold one outside the window waits, any other is published. */
  function Attempt(c: Config, id: nat, r: OutboxRow, b: Broker, cache: set<string>): Option<Delivery> {
    if IsColdText(r.task.contactType) && !c.IsWithinWorkWindow(b.now) then None
    else if IsBlocked(r.task, cache) then Some(BlockedResult(id, r.task, cache, b.resultSent))
    else if AccountText(r) == "" || !b.queueReady then None
    else
      Some(ToAccount(id, AccountRoutingKey(AccountText(r)), AccountSendQueue(AccountText(r)), r.task, b.now, cache,
                     b.publish))
  }

  /** A delivery after which the row may be marked: acked, or sent where no confirmation exists. */
  predicate Successful(d: Delivery) {
    match d
    case ToAccount(_, _, _, _, _, _, publish) => publish == Acked || publish == Unconfirmed
    case BlockedResult(_, _, _, sent) => sent
  }

  /**
   What becomes of a message. A cold one waits while the window is closed; any other is answered as blocked exactly when
   its tenant and phone are among the pairs the cache stood for when it was looked up; and what is left is published,
   once its queue can be had, on the key and queue of the account on the row, which is that of the payload.
   */
  lemma FiltersHold(c: Config, id: nat, r: OutboxRow, b: Broker, pairs: set<(Uuid, Phone)>)
    requires FromDoser(r)
    ensures var cache := Blocklist.Keys(pairs);
            var blocked := r.task.phone.digits != "" && (r.tenant, r.task.phone) in pairs;
            Attempt(c, id, r, b, cache) ==
            if r.task.contactType == "cold" && !c.IsWithinWorkWindow(b.now) then None
            else if blocked then Some(BlockedResult(id, r.task, cache, b.resultSent))
            else if !b.queueReady then None
            else Some(ToAccount(id, "account." + UuidText(r.task.tenantAccountId),
                                "tasks.messages.send.account." + UuidText(r.account), r.task, b.now, cache, b.publish))
  {
    Blocklist.KeysMember(pairs, r.task.tenantId, r.task.phone);
    ColdTextIsCold(r);
  }

  lemma ColdTextIsCold(r: OutboxRow)
    requires FromDoser(r)
    ensures IsColdText(r.task.contactType) <==> r.task.contactType == "cold"
  {
    if r.task.contactType == "cold" {
      assert ToUpper("cold") == "COLD";
    } else {
      assert ToUpper("warm")[0] == 'W';
    }
  }

  const BLOCKED_MESSAGE := "Заблокировано пользователем"

  /** The result published instead of a message whose recipient is blocked. */
  function BlockedTargetResult(task: SendTask, now: Time): Results.TargetResult {
    Results.TargetResult(task.taskId, task.campaignId, NIL, task.tenantAccountId, UuidText(task.accountId), task.phone,
                         Failed,
                         None, BLOCKED_RECIPIENT, Some(BLOCKED_MESSAGE), now, "", "")
  }

  lemma BlockedResultIsReported(c: Config, parse: Results.UuidParser, task: SendTask, sentAt: Time, now: Time)
    ensures Results.Route(c, parse, now, BlockedTargetResult(task, sentAt)) ==
            Protocol.Update(task.taskId, Failed, Some(BLOCKED_MESSAGE), None)
  {
    BlockedRecipientIsFinal();
    FinalByText(BLOCKED_RECIPIENT);
    Results.FinalFailureIsReported(c, parse, now, BlockedTargetResult(task, sentAt));
  }

  /** Once consumed it settles the target as failed, without a retry and without cooling its account down. */
  lemma BlockedResultSettles(c: Config, parse: Results.UuidParser, db: Db, task: SendTask, sentAt: Time, now: Time,
                             chosen: Uuid)
    requires Reportable(db, task.taskId, Failed)
    ensures var call := Results.Route(c, parse, now, BlockedTargetResult(task, sentAt));
            var after := Results.ApplyCall(c, db, now, call, chosen);
            Results.CallSucceeds(db, call, chosen) &&
            task.taskId in after.targets && after.targets[task.taskId].status == Failed &&
            after.targets[task.taskId].lastError == Some("Заблокировано пользователем") && after.accounts == db.accounts
  {
    BlockedResultIsReported(c, parse, task, sentAt, now);
  }

  // ---------------------------------------------------------------- one pass

  predicate InRange(rows: seq<OutboxRow>, ids: seq<nat>) {
    forall i :: 0 <= i < |ids| ==> ids[i] < |rows|
  }

  /** The blocklist when the last of these messages is looked up: before each, other writers act. */
  function SharedAt(s: Blocklist.Shared, brokers: seq<Broker>): Blocklist.Shared {
    if brokers == [] then s
    else
      var n := |brokers| - 1;
      Blocklist.Attempted(SharedAt(s, brokers[..n]), brokers[n].writers)
  }

  function Attempts(c: Config, rows: seq<OutboxRow>, s: Blocklist.Shared, ids: seq<nat>,
                    brokers: seq<Broker>): seq<Option<Delivery>>
    requires |ids| == |brokers| && InRange(rows, ids)
  {
    seq(|ids|, i requires 0 <= i < |ids| =>
          Attempt(c, ids[i], rows[ids[i]], brokers[i], SharedAt(s, brokers[..i + 1]).cache))
  }

  function Made(attempts: seq<Option<Delivery>>): seq<Delivery> {
    if attempts == [] then []
    else
      var n := |attempts| - 1;
      Made(attempts[..n]) + if attempts[n].Some? then [attempts[n].value] else []
  }

  lemma {:induction false} MadeMember(attempts: seq<Option<Delivery>>, d: Delivery)
    ensures d in Made(attempts) <==> Some(d) in attempts
  {
    if attempts != [] {
      var n := |attempts| - 1;
      MadeMember(attempts[..n], d);
      assert attempts == attempts[..n] + [attempts[n]];
    }
  }

  /** What a pass over the batch delivers, in order. */
  function Deliveries(c: Config, rows: seq<OutboxRow>, s: Blocklist.Shared, ids: seq<nat>,
                      brokers: seq<Broker>): seq<Delivery>
    requires |ids| == |brokers| && InRange(rows, ids)
  {
    Made(Attempts(c, rows, s, ids, brokers))
  }

  /** The rows whose delivery succeeded, in order. */
  function ProcessedIDs(ds: seq<Delivery>): seq<nat> {
    if ds == [] then []
    else ProcessedIDs(ds[..|ds| - 1]) + if Successful(ds[|ds| - 1]) then [ds[|ds| - 1].row] else []
  }

  lemma {:induction false} ProcessedIDsMember(ds: seq<Delivery>, id: nat)
    ensures id in ProcessedIDs(ds) <==> exists d :: d in ds && d.row == id && Successful(d)
  {
    if ds != [] {
      var n := |ds| - 1;
      ProcessedIDsMember(ds[..n], id);
      assert ds == ds[..n] + [ds[n]];
    }
  }

  lemma OneMoreMade(attempts: seq<Option<Delivery>>, i: nat)
    requires i < |attempts|
    ensures Made(attempts[..i + 1]) == if attempts[i].Some? then Made(attempts[..i]) + [attempts[i].value]
            else Made(attempts[..i])
  {
    assert attempts[..i + 1][..i] == attempts[..i];
  }

  lemma OneMoreProcessed(ds: seq<Delivery>, d: Delivery)
    ensures ProcessedIDs(ds + [d]) == if Successful(d) then ProcessedIDs(ds) + [d.row] else ProcessedIDs(ds)
  {
    assert (ds + [d])[..|ds|] == ds;
  }

  /** One message: skipped, answered or published. */
  method ProcessMessage(c: Config, id: nat, msg: OutboxRow, b: Broker, cache: set<string>)
    returns (delivery: Option<Delivery>)
    ensures delivery == Attempt(c, id, msg, b, cache)
  {
    if IsColdText(msg.task.contactType) && !c.IsWithinWorkWindow(b.now) {
      return None;
    }
    if msg.task.phone.digits != "" && Blocklist.Key(msg.task.tenantId, msg.task.phone) in cache {
      return Some(BlockedResult(id, msg.task, cache, b.resultSent));
    }
    var account := AccountText(msg);
    if account == "" || !b.queueReady {
      return None;
    }
    return Some(ToAccount(id, AccountRoutingKey(account), AccountSendQueue(account), msg.task, b.now, cache,
                          b.publish));
  }

  method ProcessAt(c: Config, rows: seq<OutboxRow>, ghost s: Blocklist.Shared, ids: seq<nat>, brokers: seq<Broker>,
                   i: nat,
                   cache: set<string>)
    returns (delivery: Option<Delivery>)
    requires |ids| == |brokers| && InRange(rows, ids) && i < |ids| && cache == SharedAt(s, brokers[..i + 1]).cache
    ensures delivery == Attempts(c, rows, s, ids, brokers)[i] && (delivery.Some? ==> delivery.value.row == ids[i])
  {
    delivery := ProcessMessage(c, ids[i], rows[ids[i]], brokers[i], cache);
  }

  lemma SharedPlus(s: Blocklist.Shared, brokers: seq<Broker>, i: nat)
    requires i < |brokers|
    ensures SharedAt(s, brokers[..i + 1]) == Blocklist.Attempted(SharedAt(s, brokers[..i]), brokers[i].writers)
  {
    assert brokers[..i + 1][..i] == brokers[..i];
  }

  /** The loop over the batch, with the deliveries it makes and the blocklist it leaves. */
  method ProcessBatch(c: Config, rows: seq<OutboxRow>, s: Blocklist.Shared, ids: seq<nat>, brokers: seq<Broker>)
    returns (processedIDs: seq<nat>, shared: Blocklist.Shared, ghost ds: seq<Delivery>)
    requires |ids| == |brokers| && InRange(rows, ids)
    ensures ds == Deliveries(c, rows, s, ids, brokers) && shared == SharedAt(s, brokers)
    ensures processedIDs == ProcessedIDs(Deliveries(c, rows, s, ids, brokers))
  {
    processedIDs, shared, ds := [], s, [];
    ghost var attempts := Attempts(c, rows, s, ids, brokers);
    for i := 0 to |ids|
      invariant ds == Made(attempts[..i]) && processedIDs == ProcessedIDs(ds) && shared == SharedAt(s, brokers[..i])
    {
      SharedPlus(s, brokers, i);
      shared := Blocklist.Attempted(shared, brokers[i].writers);
      var delivery := ProcessAt(c, rows, s, ids, brokers, i, shared.cache);
      OneMoreMade(attempts, i);
      if delivery.Some? {
        OneMoreProcessed(ds, delivery.value);
        ds := ds + [delivery.value];
        if Successful(delivery.value) {
          processedIDs := processedIDs + [ids[i]];
        }
      }
    }
    assert attempts[..|ids|] == attempts && brokers[..|ids|] == brokers;
  }

  class OutboxWorker {
    var rows: seq<OutboxRow>
    var shared: Blocklist.Shared
    ghost var sent: seq<Delivery>

    constructor (rows: seq<OutboxRow>, shared: Blocklist.Shared)
      ensures this.rows == rows && this.shared == shared && sent == []
    {
      this.rows, this.shared, sent := rows, shared, [];
    }

    /**
     One pass over a batch, while the blocklist's other writers act between its messages. Each message
     is attempted at most once; only rows with a successful delivery are marked, and a failed marking
     leaves all of them pending.
     */
    method ProcessMessages(c: Config, now: Time, ids: seq<nat>, brokers: seq<Broker>, markOk: bool)
      requires IsBatch(rows, now, 100, ids) && |brokers| == |ids|
      modifies this
      ensures sent == old(sent) + Deliveries(c, old(rows), old(shared), ids, brokers) &&
              shared == SharedAt(old(shared), brokers)
      ensures rows == if markOk
              then MarkProcessed(old(rows), ProcessedIDs(Deliveries(c, old(rows), old(shared), ids, brokers)))
                      else old(rows)
    {
      var processedIDs: seq<nat>;
      ghost var ds: seq<Delivery>;
      processedIDs, shared, ds := ProcessBatch(c, rows, shared, ids, brokers);
      sent := sent + ds;
      if markOk {
        rows := MarkProcessed(rows, processedIDs);
      }
    }
  }

  // ---------------------------------------------------------------- whole runs

  datatype OutboxStep =
    | Enqueue(row: OutboxRow)
    | Writers(actions: seq<Blocklist.Action>)
    | Pass(now: Time, ids: seq<nat>, brokers: seq<Broker>, markOk: bool)

  /** The outbox table, the blocklist with its cache, and all deliveries so far. */
  datatype Mailbox = Mailbox(rows: seq<OutboxRow>, shared: Blocklist.Shared, sent: seq<Delivery>)

  predicate CanStep(m: Mailbox, s: OutboxStep) {
    match s
    case Enqueue(row) => !row.processed
    case Writers(_) => true
    case Pass(now, ids, brokers, _) => IsBatch(m.rows, now, 100, ids) && |brokers| == |ids|
  }

  function After(c: Config, m: Mailbox, s: OutboxStep): Mailbox
    requires CanStep(m, s)
  {
    match s
    case Enqueue(row) => m.(rows := m.rows + [row])
    case Writers(actions) => m.(shared := Blocklist.Attempted(m.shared, actions))
    case Pass(_, ids, brokers, markOk) =>
      var ds := Deliveries(c, m.rows, m.shared, ids, brokers);
      Mailbox(if markOk then MarkProcessed(m.rows, ProcessedIDs(ds))
              else m.rows, SharedAt(m.shared, brokers), m.sent + ds)
  }

  predicate Lawful(c: Config, m: Mailbox, steps: seq<OutboxStep>)
    decreases |steps|
  {
    steps == [] || (CanStep(m, steps[0]) && Lawful(c, After(c, m, steps[0]), steps[1..]))
  }

  function Deliver(c: Config, m: Mailbox, steps: seq<OutboxStep>): Mailbox
    requires Lawful(c, m, steps)
    decreases |steps|
  {
    if steps == [] then m else Deliver(c, After(c, m, steps[0]), steps[1..])
  }

  predicate Accounted(m: Mailbox, id: nat)
    requires id < |m.rows|
  {
    m.rows[id].processed ==> exists d :: d in m.sent && d.row == id && Successful(d)
  }

  /**
   Every delivery carries the payload of its row. One to an account is on that account's key and queue,
   its tenant and phone were not in the cache when looked up, and the window was open if it is cold.
   One that answers a message as blocked does so for a tenant and phone persisted as blocked.
   */
  predicate Faithful(c: Config, m: Mailbox, d: Delivery) {
    d.row < |m.rows| && d.task == m.rows[d.row].task &&
    match d
    case ToAccount(row, routingKey, queue, task, at, cache, _) =>
      var account := AccountText(m.rows[row]);
      account != "" && routingKey == AccountRoutingKey(account) && queue == AccountSendQueue(account) &&
      (task.phone.digits != "" ==> Blocklist.Key(task.tenantId, task.phone) !in cache) &&
      (IsColdText(task.contactType) ==> c.IsWithinWorkWindow(at))
    case BlockedResult(_, task, _, _) => (task.tenantId, task.phone) in m.shared.table
  }

  predicate MailboxInv(c: Config, m: Mailbox) {
    (forall id :: 0 <= id < |m.rows| ==> Accounted(m, id)) && (forall d :: d in m.sent ==> Faithful(c, m, d)) &&
    Blocklist.CacheBacked(m.shared)
  }

  lemma AttemptFaithful(c: Config, m: Mailbox, id: nat, b: Broker, s: Blocklist.Shared)
    requires id < |m.rows| && Blocklist.CacheBacked(s) && s.table <= m.shared.table
    ensures var d := Attempt(c, id, m.rows[id], b, s.cache); d.Some? ==> Faithful(c, m, d.value)
  {
    var task := m.rows[id].task;
    Blocklist.KeysMember(s.table, task.tenantId, task.phone);
  }

  lemma {:induction false} SharedBacked(s: Blocklist.Shared, brokers: seq<Broker>, i: nat)
    requires Blocklist.CacheBacked(s) && i <= |brokers|
    ensures Blocklist.CacheBacked(SharedAt(s, brokers[..i])) && s.table <= SharedAt(s, brokers[..i]).table
    ensures Blocklist.CacheBacked(SharedAt(s, brokers)) && SharedAt(s, brokers[..i]).table <= SharedAt(s, brokers).table
    decreases |brokers|
  {
    if brokers == [] {
      assert brokers[..i] == [];
    } else {
      var n := |brokers| - 1;
      SharedBacked(s, brokers[..n], if i <= n then i else n);
      Blocklist.AttemptedBacked(SharedAt(s, brokers[..n]), brokers[n].writers);
      assert i <= n ==> brokers[..n][..i] == brokers[..i];
      assert brokers[..n][..n] == brokers[..n] && (i == n + 1 ==> brokers[..i] == brokers);
    }
  }

  lemma DeliveriesFaithful(c: Config, m: Mailbox, s: Blocklist.Shared, ids: seq<nat>, brokers: seq<Broker>)
    requires |ids| == |brokers| && InRange(m.rows, ids) && Blocklist.CacheBacked(s)
    requires SharedAt(s, brokers).table <= m.shared.table
    ensures forall d :: d in Deliveries(c, m.rows, s, ids, brokers) ==> Faithful(c, m, d)
  {
    var attempts := Attempts(c, m.rows, s, ids, brokers);
    forall d | d in Made(attempts) ensures Faithful(c, m, d) {
      MadeMember(attempts, d);
      var i :| 0 <= i < |attempts| && attempts[i] == Some(d);
      SharedBacked(s, brokers, i + 1);
      AttemptFaithful(c, m, ids[i], brokers[i], SharedAt(s, brokers[..i + 1]));
    }
  }

  predicate SameButMarks(a: seq<OutboxRow>, b: seq<OutboxRow>) {
    |a| <= |b| && forall i :: 0 <= i < |a| ==>
    b[i] == a[i].(processed := b[i].processed) && (a[i].processed ==> b[i].processed)
  }

  lemma PassKeepsAccounted(c: Config, m: Mailbox, s: OutboxStep, id: nat)
    requires CanStep(m, s) && s.Pass? && id < |m.rows| && Accounted(m, id)
    ensures id < |After(c, m, s).rows| && Accounted(After(c, m, s), id)
  {
    ProcessedIDsMember(Deliveries(c, m.rows, m.shared, s.ids, s.brokers), id);
  }

  /** Same payloads and no fewer blocks: what was faithful stays so. */
  lemma FaithfulStays(c: Config, m: Mailbox, after: Mailbox, d: Delivery)
    requires Faithful(c, m, d) && SameButMarks(m.rows, after.rows) && m.shared.table <= after.shared.table
    ensures Faithful(c, after, d)
  {
  }

  /**
   A pass that can mark leaves a row processed exactly when it was, or a delivery of it was acknowledged, was sent where
   no confirmation exists, or answered it as blocked. One that cannot mark changes no row.
   */
  lemma PassMarksExactly(c: Config, m: Mailbox, s: OutboxStep, id: nat)
    requires CanStep(m, s) && s.Pass? && id < |m.rows|
    ensures var after, ds := After(c, m, s).rows, Deliveries(c, m.rows, m.shared, s.ids, s.brokers);
            |after| == |m.rows| && after[id] == m.rows[id].(processed := after[id].processed) &&
            (after[id].processed <==>
               m.rows[id].processed ||
               (s.markOk && exists d :: d in ds && d.row == id &&
                                        if d.ToAccount? then d.publish in {Acked, Unconfirmed} else d.sent))
  {
    var ds := Deliveries(c, m.rows, m.shared, s.ids, s.brokers);
    ProcessedIDsMember(ds, id);
    if d :| d in ds && d.row == id && if d.ToAccount? then d.publish in {Acked, Unconfirmed} else d.sent {
      assert Successful(d);
    }
  }

  /** A pass delivers only rows that were pending and due when its batch was read. */
  lemma DeliveredWhenDue(c: Config, m: Mailbox, s: OutboxStep, d: Delivery)
    requires CanStep(m, s) && s.Pass? && d in Deliveries(c, m.rows, m.shared, s.ids, s.brokers)
    ensures d.row < |m.rows| && !m.rows[d.row].processed && m.rows[d.row].publishAt <= s.now
  {
    var attempts := Attempts(c, m.rows, m.shared, s.ids, s.brokers);
    MadeMember(attempts, d);
    var i :| 0 <= i < |attempts| && attempts[i] == Some(d);
  }

  lemma MarkedRows(rows: seq<OutboxRow>, ids: seq<nat>)
    ensures SameButMarks(rows, MarkProcessed(rows, ids))
  {
  }

  lemma PassKeeps(c: Config, m: Mailbox, s: OutboxStep)
    requires CanStep(m, s) && s.Pass? && MailboxInv(c, m)
    ensures MailboxInv(c, After(c, m, s)) && SameButMarks(m.rows, After(c, m, s).rows)
  {
    var after := After(c, m, s);
    var ds := Deliveries(c, m.rows, m.shared, s.ids, s.brokers);
    MarkedRows(m.rows, ProcessedIDs(ds));
    SharedBacked(m.shared, s.brokers, 0);
    assert s.brokers[..0] == [];
    DeliveriesFaithful(c, m.(shared := after.shared), m.shared, s.ids, s.brokers);
    forall id | 0 <= id < |after.rows| ensures Accounted(after, id) {
      PassKeepsAccounted(c, m, s, id);
    }
    forall d | d in after.sent ensures Faithful(c, after, d) {
      FaithfulStays(c, if d in ds then m.(shared := after.shared) else m, after, d);
    }
  }

  lemma OthersKeep(c: Config, m: Mailbox, s: OutboxStep)
    requires CanStep(m, s) && !s.Pass? && MailboxInv(c, m)
    ensures MailboxInv(c, After(c, m, s)) && SameButMarks(m.rows, After(c, m, s).rows)
  {
    var after := After(c, m, s);
    if s.Writers? { Blocklist.AttemptedBacked(m.shared, s.actions); }
    forall id | 0 <= id < |after.rows| ensures Accounted(after, id) {
      if id < |m.rows| { assert Accounted(m, id); }
    }
    forall d | d in after.sent ensures Faithful(c, after, d) {
      FaithfulStays(c, m, after, d);
    }
  }

  lemma {:induction false} MailboxAlong(c: Config, m: Mailbox, steps: seq<OutboxStep>)
    requires Lawful(c, m, steps) && MailboxInv(c, m)
    ensures MailboxInv(c, Deliver(c, m, steps)) && SameButMarks(m.rows, Deliver(c, m, steps).rows)
    decreases |steps|
  {
    if steps != [] {
      if steps[0].Pass? { PassKeeps(c, m, steps[0]); } else { OthersKeep(c, m, steps[0]); }
      MailboxAlong(c, After(c, m, steps[0]), steps[1..]);
    }
  }

  /** An empty outbox and an empty cache whose writers are at rest, over any persisted blocks. */
  predicate FreshMailbox(m: Mailbox) {
    m.rows == [] && m.sent == [] && m.shared.cache == {} && forall w :: w in m.shared.writers ==> w.Resting?
  }

  /**
   At least once: over any run with arbitrary publish errors, nacks, lost confirmations, failed
   markings and writers of the blocklist, no row is lost or altered, each is still pending or had a
   successful delivery, and every delivery carried its row's payload. What reached an account queue
   was its own account's, not cached as blocked when it was looked up, and inside the window when
   cold; what was answered as blocked is persisted as blocked.
   */
  lemma AtLeastOnce(c: Config, start: Mailbox, steps: seq<OutboxStep>)
    requires FreshMailbox(start) && Lawful(c, start, steps)
    ensures var m := Deliver(c, start, steps);
            (forall id :: 0 <= id < |m.rows| ==>
               !m.rows[id].processed ||
               exists d :: d in m.sent && d.row == id &&
                           if d.ToAccount? then d.publish in {Acked, Unconfirmed} else d.sent) &&
            (forall d :: d in m.sent ==> Faithful(c, m, d))
  {
    MailboxAlong(c, start, steps);
    var m := Deliver(c, start, steps);
    forall id | 0 <= id < |m.rows|
      ensures !m.rows[id].processed ||
              exists d :: d in m.sent && d.row == id &&
                          if d.ToAccount? then d.publish in {Acked, Unconfirmed} else d.sent
    {
      assert Accounted(m, id);
    }
  }

  /** Rows keep their place and content from any point of a run to any later one. */
  lemma RowsNeverLost(c: Config, m: Mailbox, steps: seq<OutboxStep>)
    requires Lawful(c, m, steps) && MailboxInv(c, m)
    ensures SameButMarks(m.rows, Deliver(c, m, steps).rows)
  {
    MailboxAlong(c, m, steps);
  }
}
