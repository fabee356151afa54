/** The result consumer: settling deliveries, grouping replies and notifying tenant admins. */
module Consumer {
  import opened Domain
  import opened Settings
  import opened Tables
  import opened Protocol
  import opened Results
  import opened Counting
  import opened Publishing

  datatype QueuedResult = QueuedResult(result: TargetResult, tag: nat)

  datatype Settlement = Settlement(tag: nat, acked: bool)

  datatype ChatRow = ChatRow(target: Uuid, campaign: Uuid, phone: Phone, account: Uuid)

  datatype ChatLookup = ChatFound(row: ChatRow) | ChatMissing | ChatLookupFailed

  /** The columns of a target that the consumer reads back. */
  datatype TargetRow = TargetRow(
    status: TaskStatus,
    lastReplyText: Option<string>,
    repliedAt: Option<Time>,
    phone: Phone,
    clientName: string,
    account: Option<Uuid>)

  /**
   What the repository answers while one result is handled: the chat lookup, the target read
   before and after registering a reply (None is an error), the tenant of the registered reply
   (None is an error), and whether the status call succeeds.
   */
  datatype Answers = Answers(
    chat: ChatLookup,
    existing: Option<TargetRow>,
    registered: Option<Uuid>,
    loaded: Option<TargetRow>,
    callOk: bool)

  datatype ReplyInfo = ReplyInfo(phone: Phone, name: string, message: string, time: Time)

  datatype ObservedReply = ObservedReply(tenant: Uuid, account: Uuid, reply: ReplyInfo)

  datatype GroupKey = GroupKey(tenant: Uuid, account: Uuid)

  /** The observed replies of a batch by tenant and account. */
  type Groups = map<GroupKey, seq<ReplyInfo>>

  /** The admin phones of each tenant that could be loaded. */
  type Phones = map<Uuid, seq<string>>

  // ---------------------------------------------------------------- one result

  predicate IsBlank(p: Phone) {
    TrimSpace(p.digits) == ""
  }

  predicate Addressed(r: TargetResult) {
    r.targetId != NIL && r.campaignId != NIL
  }

  /** The result with its target, or None when it is acknowledged without reaching a target. */
  function Resolve(r: TargetResult, chat: ChatLookup): Option<TargetResult> {
    if r.chatId == "" then (if Addressed(r) then Some(r) else None)
    else if Addressed(r) && !IsBlank(r.phone) then Some(r)
    else if IsAdminNotificationResult(r) && !IsBlank(r.phone) then None
    else if chat.ChatFound? && chat.row.target != NIL && chat.row.campaign != NIL then
      Some(r.(targetId := chat.row.target, campaignId := chat.row.campaign, phone := chat.row.phone,
              tenantAccountId := if r.tenantAccountId == NIL then chat.row.account else r.tenantAccountId))
    else None
  }

  /**
   A result reaches the target it names if it names target and campaign, and a phone where it has a chat. One from a
   chat that names less reaches the target its chat is known for, with that target's phone and, if it names none, that
   chat's account; but never the result of an admin notification with a phone. Every other result reaches no target.
   */
  lemma ResolvedExactly(r: TargetResult, chat: ChatLookup)
    ensures var names := r.targetId != NIL && r.campaignId != NIL;
            var phone := TrimSpace(r.phone.digits) != "";
            var notification := r.status == Sent && r.targetId == NIL && r.campaignId == NIL && phone;
            if names && (phone || r.chatId == "") then Resolve(r, chat) == Some(r)
            else if r.chatId != "" && !notification && chat.ChatFound? && chat.row.target != NIL &&
                    chat.row.campaign != NIL then
              Resolve(r, chat) ==
              Some(r.(targetId := chat.row.target, campaignId := chat.row.campaign, phone := chat.row.phone,
                      tenantAccountId := if r.tenantAccountId != NIL then r.tenantAccountId else chat.row.account))
            else Resolve(r, chat) == None
  {
  }

  /** A chat of a tenant's admin with the account that notified them. */
  datatype AdminMapping = AdminMapping(chatId: string, tenant: Uuid, account: Uuid, phone: Phone, messengerType: string)

  /** The mapping that an admin notification's result is saved as, if any. */
  function AdminMappingOf(parse: UuidParser, r: TargetResult): Option<AdminMapping> {
    var account := ResultAccountID(parse, r);
    if r.chatId != "" && IsAdminNotificationResult(r) && !IsBlank(r.phone) && account != NIL
    then Some(AdminMapping(r.chatId, r.tenantId, account, r.phone, r.messengerType))
    else None
  }

  /**
   A mapping is saved exactly for a sent notification with a chat, a phone and a known sender account,
   which is one the worker reported, by its own field or by the legacy one, and never a guess; such a
   result never reaches a target.
   */
  lemma AdminMappingExactly(parse: UuidParser, r: TargetResult, chat: ChatLookup)
    ensures var m := AdminMappingOf(parse, r);
            var legacy := TrimSpace(r.accountId);
            (m.Some? <==>
               r.status == Sent && r.targetId == NIL && r.campaignId == NIL && r.chatId != "" && !IsBlank(r.phone) &&
               (r.tenantAccountId != NIL || (legacy != "" && parse(legacy) !in {None, Some(NIL)}))) &&
            (m.Some? ==>
               Resolve(r, chat).None? && m.value.account != NIL && m.value.chatId == r.chatId &&
               m.value.tenant == r.tenantId && m.value.phone == r.phone && m.value.messengerType == r.messengerType &&
               (m.value.account == r.tenantAccountId ||
                (r.tenantAccountId == NIL && Some(m.value.account) == parse(legacy))))
  {
  }

  predicate IsReply(r: TargetResult) {
    r.replyText.Some? && r.status == Replied
  }

  predicate IsDuplicate(r: TargetResult, existing: Option<TargetRow>)
    requires IsReply(r)
  {
    existing.Some? &&
    var e := existing.value;
    e.status == Replied && e.lastReplyText.Some? && e.repliedAt.Some? &&
    TrimSpace(e.lastReplyText.value) == TrimSpace(r.replyText.value) &&
    -2 * MINUTE <= e.repliedAt.value - r.timestamp <= 2 * MINUTE
  }

  /** The row is replied, with this text up to outer white space, at most two minutes before or after. */
  predicate Carries(row: Target, text: string, at: Time) {
    row.status == Replied && row.lastReplyText.Some? && row.repliedAt.Some? &&
    TrimSpace(row.lastReplyText.value) == TrimSpace(text) &&
    at - 120_000_000 <= row.repliedAt.value <= at + 120_000_000
  }

  /** The same of the columns that the consumer read back, if it could read them. */
  predicate IsKnown(read: Option<TargetRow>, text: string, at: Time) {
    read.Some? && read.value.status == Replied && read.value.lastReplyText.Some? && read.value.repliedAt.Some? &&
    TrimSpace(read.value.lastReplyText.value) == TrimSpace(text) &&
    at - 120_000_000 <= read.value.repliedAt.value <= at + 120_000_000
  }

  datatype Handling = Handling(acked: bool, call: RepoCall, observed: Option<ObservedReply>,
                               block: Option<(Uuid, Phone)>)

  /** A reply: a duplicate is acknowledged, any other registered and its target read back. */
  function HandleReplied(c: Config, t: TargetResult, a: Answers): Handling
    requires IsReply(t)
  {
    if IsDuplicate(t, a.existing) then Handling(true, NoCall, None, None)
    else if a.registered.None? || a.loaded.None? then Handling(false, DirectCall(t), None, None)
    else
      Handling(true, DirectCall(t),
               Some(ObservedReply(a.registered.value, ReplyAccountID(t.tenantAccountId, a.loaded.value.account),
                                  ReplyInfo(a.loaded.value.phone, a.loaded.value.clientName, t.replyText.value,
                                            t.timestamp))),
               if c.IsUnsubscribeReply(t.replyText.value) then Some((a.registered.value, a.loaded.value.phone))
                 else None)
  }

  function Handle(c: Config, parse: UuidParser, now: Time, r: TargetResult, a: Answers): Handling {
    match Resolve(r, a.chat)
    case None => Handling(true, NoCall, None, None)
    case Some(t) =>
      var call := Route(c, parse, now, t);
      if IsReply(t) then HandleReplied(c, t, a) else Handling(call == NoCall || a.callOk, call, None, None)
  }

  /** A delivery is returned to the queue only because a repository call for its resolved target failed. */
  lemma NackedExactly(c: Config, parse: UuidParser, now: Time, r: TargetResult, a: Answers)
    ensures !Handle(c, parse, now, r, a).acked <==>
            Resolve(r, a.chat).Some? &&
            var t := Resolve(r, a.chat).value;
            if IsReply(t) then !IsKnown(a.existing, t.replyText.value, t.timestamp) &&
              (a.registered.None? || a.loaded.None?)
            else (t.status != Other("") || IsSendFailureResult(t)) && !a.callOk
  {
  }

  /** A reply is observed exactly when it is new and both its registration and the target lookup succeeded. */
  lemma ObservedExactly(c: Config, parse: UuidParser, now: Time, r: TargetResult, a: Answers)
    ensures Handle(c, parse, now, r, a).observed.Some? <==>
            Resolve(r, a.chat).Some? &&
            var t := Resolve(r, a.chat).value;
            IsReply(t) && !IsKnown(a.existing, t.replyText.value, t.timestamp) && a.registered.Some? && a.loaded.Some?
    ensures Handle(c, parse, now, r, a).observed.Some? ==> Handle(c, parse, now, r, a).acked
  {
  }

  lemma RouteKeepsTarget(c: Config, parse: UuidParser, now: Time, t: TargetResult)
    ensures var call := Route(c, parse, now, t);
            (call.Update? || call.MarkUnknown? || call.Retry? ==> call.target == t.targetId) &&
            (call.Register? ==> call.campaign == t.campaignId)
  {
  }

  /** A result without target and campaign never reaches the repository's status calls. */
  lemma CallsAreAddressed(c: Config, parse: UuidParser, now: Time, r: TargetResult, a: Answers)
    ensures var call := Handle(c, parse, now, r, a).call;
            (call.Update? || call.MarkUnknown? || call.Retry? ==> call.target != NIL) &&
            (call.Register? ==> call.campaign != NIL)
  {
    if Resolve(r, a.chat).Some? {
      RouteKeepsTarget(c, parse, now, Resolve(r, a.chat).value);
    }
  }

  function RowOf(db: Db, t: Uuid, name: string): Option<TargetRow> {
    if t !in db.targets then None
    else
      var row := db.targets[t];
      Some(TargetRow(row.status, row.lastReplyText, row.repliedAt, row.phone, name, row.account))
  }

  /**
   A reply delivered again after it was registered is recognised and not registered a second time,
   exactly when its own target carries the reply: the target matched by campaign and phone, or one
   that already looked the same.
   */
  lemma ReplyRedeliveryRecognised(c: Config, db: Db, r: TargetResult, chosen: Uuid, name: string, unsub: bool)
    requires IsReply(r) && Registrable(db, r.campaignId, r.phone, chosen)
    ensures var after := RegisterReply(db, r.campaignId, r.phone, r.replyText.value, r.timestamp, unsub, chosen);
            var text, at := r.replyText.value, r.timestamp;
            (IsDuplicate(r, RowOf(after, r.targetId, name)) <==>
               r.targetId in after.targets && Carries(after.targets[r.targetId], text, at)) &&
            (IsDuplicate(r, RowOf(after, r.targetId, name)) <==>
               r.targetId in db.targets &&
               var was := db.targets[r.targetId];
               (was.campaign == r.campaignId && was.phone == r.phone) || Carries(was, text, at))
  {
  }

  /**
   The pair the consumer adds to the blocklist cache is persisted by the registration exactly when
   the reply came from the target's own phone, or was blocked before.
   */
  lemma CachedBlockIsPersistedExactly(db: Db, r: TargetResult, chosen: Uuid)
    requires IsReply(r) && Registrable(db, r.campaignId, r.phone, chosen) && r.targetId in db.targets
    ensures var after := RegisterReply(db, r.campaignId, r.phone, r.replyText.value, r.timestamp, true, chosen);
            var pair := (db.campaigns[r.campaignId].tenant, db.targets[r.targetId].phone);
            pair in after.blocked <==> db.targets[r.targetId].phone == r.phone || pair in db.blocked
  {
  }

  // ---------------------------------------------------------------- a batch

  /** A batch handled in order. */
  function Handled(c: Config, parse: UuidParser, times: seq<Time>, items: seq<QueuedResult>,
                   answers: seq<Answers>): seq<Handling>
    requires |items| == |answers| == |times|
  {
    seq(|items|, i requires 0 <= i < |items| => Handle(c, parse, times[i], items[i].result, answers[i]))
  }

  /** The observed replies and blocklist additions of handlings, in order. */
  function ObservedOf(hs: seq<Handling>): seq<ObservedReply> {
    if hs == [] then []
    else ObservedOf(hs[..|hs| - 1]) + if hs[|hs| - 1].observed.Some? then [hs[|hs| - 1].observed.value] else []
  }

  function BlocksOf(hs: seq<Handling>): seq<(Uuid, Phone)> {
    if hs == [] then []
    else BlocksOf(hs[..|hs| - 1]) + if hs[|hs| - 1].block.Some? then [hs[|hs| - 1].block.value] else []
  }

  // ---------------------------------------------------------------- grouping

  /** The replies of one tenant and account, in arrival order. */
  function Only(observed: seq<ObservedReply>, k: GroupKey): seq<ReplyInfo> {
    if observed == [] then []
    else
      var n := |observed| - 1;
      Only(observed[..n], k) +
      if observed[n].tenant == k.tenant && observed[n].account == k.account then [observed[n].reply] else []
  }

  method GroupReplies(observed: seq<ObservedReply>) returns (groups: Groups)
    ensures forall k :: k in groups <==> Only(observed, k) != []
    ensures IsGrouping(observed, groups)
  {
    groups := map[];
    for i := 0 to |observed|
      invariant forall k :: k in groups <==> Only(observed[..i], k) != []
      invariant forall k :: k in groups ==> groups[k] == Only(observed[..i], k)
    {
      var item := observed[i];
      var key := GroupKey(item.tenant, item.account);
      assert observed[..i + 1][..i] == observed[..i];
      groups := groups[key := (if key in groups then groups[key] else []) + [item.reply]];
    }
    assert observed[..|observed|] == observed;
    forall o | o in observed ensures GroupKey(o.tenant, o.account) in groups {
      OnlyNonEmpty(observed, GroupKey(o.tenant, o.account));
    }
  }

  /** Grouping keeps arrival order: what arrives later only extends each group at its end. */
  lemma {:induction false} OnlyKeepsOrder(a: seq<ObservedReply>, b: seq<ObservedReply>, k: GroupKey)
    ensures Only(a + b, k) == Only(a, k) + Only(b, k)
  {
    if b == [] {
      assert a + b == a;
    } else {
      assert (a + b)[..|a + b| - 1] == a + b[..|b| - 1];
      OnlyKeepsOrder(a, b[..|b| - 1], k);
    }
  }

  /** Every observed reply is in exactly one group, as often as it was observed. */
  lemma {:induction false} OnlyCounts(observed: seq<ObservedReply>, k: GroupKey, r: ReplyInfo)
    ensures multiset(Only(observed, k))[r] == multiset(observed)[ObservedReply(k.tenant, k.account, r)]
  {
    if observed != [] {
      var n := |observed| - 1;
      assert observed == observed[..n] + [observed[n]];
      OnlyCounts(observed[..n], k, r);
    }
  }

  ghost function Sizes(groups: Groups): map<GroupKey, nat> {
    map k | k in groups :: |groups[k]|
  }

  predicate IsGrouping(observed: seq<ObservedReply>, groups: Groups) {
    (forall k :: k in groups ==> Only(observed, k) != [] && groups[k] == Only(observed, k)) &&
    (forall o :: o in observed ==> GroupKey(o.tenant, o.account) in groups)
  }

  lemma {:induction false} OnlyNonEmpty(observed: seq<ObservedReply>, k: GroupKey)
    ensures Only(observed, k) != [] <==> exists o :: o in observed && GroupKey(o.tenant, o.account) == k
  {
    if observed != [] {
      var n := |observed| - 1;
      OnlyNonEmpty(observed[..n], k);
      assert observed == observed[..n] + [observed[n]];
    }
  }

  function GroupUpTo(observed: seq<ObservedReply>, keys: set<GroupKey>): Groups {
    map k | k in keys :: Only(observed, k)
  }

  lemma SizesPlus(observed: seq<ObservedReply>, keys: set<GroupKey>)
    requires observed != []
    requires forall o :: o in observed ==> GroupKey(o.tenant, o.account) in keys
    ensures var n := |observed| - 1;
            var key := GroupKey(observed[n].tenant, observed[n].account);
            Sizes(GroupUpTo(observed, keys)) ==
            Sizes(GroupUpTo(observed[..n], keys))[key := |Only(observed[..n], key)| + 1]
  {
    var n := |observed| - 1;
    var key := GroupKey(observed[n].tenant, observed[n].account);
    assert key in keys;
    forall k | k in keys ensures |Only(observed, k)| == |Only(observed[..n], k)| + if k == key then 1 else 0 {
    }
  }

  lemma {:induction false} SizesOfGroups(observed: seq<ObservedReply>, keys: set<GroupKey>)
    requires forall o :: o in observed ==> GroupKey(o.tenant, o.account) in keys
    ensures Total(Sizes(GroupUpTo(observed, keys))) == |observed|
  {
    if observed == [] {
      TotalOfZeros(Sizes(GroupUpTo(observed, keys)));
    } else {
      var n := |observed| - 1;
      var key := GroupKey(observed[n].tenant, observed[n].account);
      SizesOfGroups(observed[..n], keys);
      var smaller := Sizes(GroupUpTo(observed[..n], keys));
      SizesPlus(observed, keys);
      TotalUpdate(smaller, key, |Only(observed[..n], key)| + 1);
    }
  }

  /** The groups partition the batch: their sizes add up to it. */
  lemma GroupsPartition(observed: seq<ObservedReply>, groups: Groups)
    requires IsGrouping(observed, groups)
    ensures Total(Sizes(groups)) == |observed|
  {
    assert groups == GroupUpTo(observed, groups.Keys);
    SizesOfGroups(observed, groups.Keys);
  }

  // ---------------------------------------------------------------- notifications

  const NOTIFY_QUEUE_PREFIX := "tasks.messages.tenant_admin_notify.account."

  function TenantAdminNotifyQueue(account: string): string {
    NOTIFY_QUEUE_PREFIX + account
  }

  datatype Notification = Notification(queue: string, tenant: Uuid, account: Uuid, adminPhone: string,
                                       replies: seq<ReplyInfo>)

  /** What one group is due, given the admin phones of each tenant that could be loaded. */
  function NotificationsOf(k: GroupKey, replies: seq<ReplyInfo>, phones: Phones): seq<Notification> {
    if replies == [] || k.account == NIL || k.tenant !in phones then []
    else
      seq(|phones[k.tenant]|, i requires 0 <= i < |phones[k.tenant]| =>
            Notification(TenantAdminNotifyQueue(UuidText(k.account)), k.tenant, k.account, phones[k.tenant][i],
                         replies))
  }

  /** One task for each of the tenant's admin phones, in order, on the queue of the account that saw the replies. */
  lemma OneTaskPerPhone(k: GroupKey, replies: seq<ReplyInfo>, phones: Phones)
    requires replies != [] && k.account != NIL && k.tenant in phones
    ensures var due := NotificationsOf(k, replies, phones);
            |due| == |phones[k.tenant]| &&
            forall i :: 0 <= i < |due| ==>
              due[i] == Notification("tasks.messages.tenant_admin_notify.account." + UuidText(k.account), k.tenant,
                                     k.account, phones[k.tenant][i], replies)
  {
    assert TenantAdminNotifyQueue(UuidText(k.account)) ==
           "tasks.messages.tenant_admin_notify.account." + UuidText(k.account);
  }

  lemma {:induction false} PublishedAddressed(due: seq<Notification>, n: nat, x: Context, key: GroupKey)
    requires forall d :: d in due ==> d.tenant == key.tenant && d.account == key.account
    ensures forall d :: d in Published(due, n, x) ==> d.tenant == key.tenant && d.account == key.account
  {
    if due != [] { PublishedAddressed(due[..|due| - 1], n, x, key); }
  }

  lemma NotificationsAddressed(k: GroupKey, replies: seq<ReplyInfo>, phones: Phones, n: nat, x: Context)
    ensures forall d :: d in Published(NotificationsOf(k, replies, phones), n, x) ==>
            d.tenant == k.tenant && d.account == k.account
  {
    PublishedAddressed(NotificationsOf(k, replies, phones), n, x, k);
  }

  function SentFor(sent: seq<Notification>, k: GroupKey): seq<Notification> {
    if sent == [] then []
    else
      var n := |sent| - 1;
      SentFor(sent[..n], k) + if sent[n].tenant == k.tenant && sent[n].account == k.account then [sent[n]] else []
  }

  lemma {:induction false} SentForAppend(sent: seq<Notification>, more: seq<Notification>, key: GroupKey, k: GroupKey)
    requires forall n :: n in more ==> n.tenant == key.tenant && n.account == key.account
    ensures SentFor(sent + more, k) == SentFor(sent, k) + if k == key then more else []
  {
    if more == [] {
      assert sent + more == sent;
    } else {
      var m := |more| - 1;
      assert (sent + more)[..|sent + more| - 1] == sent + more[..m];
      SentForAppend(sent, more[..m], key, k);
      assert more[m] in more && more == more[..m] + [more[m]];
    }
  }

  lemma SentForAppendAll(sent: seq<Notification>, more: seq<Notification>, key: GroupKey)
    requires forall n :: n in more ==> n.tenant == key.tenant && n.account == key.account
    requires SentFor(sent, key) == []
    ensures SentFor(sent + more, key) == more
    ensures forall k :: k != key ==> SentFor(sent + more, k) == SentFor(sent, k)
  {
    SentForAppend(sent, more, key, key);
    forall k | k != key ensures SentFor(sent + more, k) == SentFor(sent, k) { SentForAppend(sent, more, key, k); }
  }

  /**
   One task per admin phone, all on the queue of the group's own account, the first with number n.
   A cancelled context ends the phase; a missing channel or queue skips the one task.
   */
  method NotifyGroup(key: GroupKey, replies: seq<ReplyInfo>, phones: Phones, n: nat, x: Context)
    returns (sent: seq<Notification>, cancelled: bool, size: nat)
    requires n == 0 || x.Live(n - 1)
    ensures var due := NotificationsOf(key, replies, phones);
            sent == Published(due, n, x) && size == |due| && (cancelled <==> due != [] && !x.Live(n + |due| - 1))
  {
    ghost var due := NotificationsOf(key, replies, phones);
    sent, cancelled, size := [], false, 0;
    if |replies| == 0 || key.account == NIL || key.tenant !in phones {
      return;
    }
    size := |phones[key.tenant]|;
    for i := 0 to |phones[key.tenant]|
      invariant sent == Published(due[..i], n, x) && (n + i == 0 || x.Live(n + i - 1))
    {
      assert due[..i + 1][..i] == due[..i];
      if !x.Live(n + i) {
        PublishedStops(due, n, x, i);
        return sent, true, size;
      }
      if x.ready(n + i) {
        var queue := TenantAdminNotifyQueue(UuidText(key.account));
        sent := sent + [Notification(queue, key.tenant, key.account, phones[key.tenant][i], replies)];
      }
    }
    assert due[..|due|] == due;
  }

  // ---------------------------------------------------------------- the notification phase

  predicate NoRepeats(order: seq<GroupKey>) {
    forall i, j :: 0 <= i < j < |order| ==> order[i] != order[j]
  }

  /** An order in which to go through the groups. */
  ghost predicate IsOrder(order: seq<GroupKey>, keys: set<GroupKey>) {
    NoRepeats(order) && forall k :: k in order <==> k in keys
  }

  /** What the groups are due, one after the other. */
  function AllDue(order: seq<GroupKey>, groups: Groups, phones: Phones): seq<Notification>
    requires forall k :: k in order ==> k in groups
  {
    if order == [] then []
    else
      var m := |order| - 1;
      AllDue(order[..m], groups, phones) + NotificationsOf(order[m], groups[order[m]], phones)
  }

  /** Every group is complete in what was sent. */
  ghost predicate AllNotified(order: seq<GroupKey>, groups: Groups, phones: Phones,
                              sent: seq<Notification>)
  {
    forall k :: k in order && k in groups ==> SentFor(sent, k) == NotificationsOf(k, groups[k], phones)
  }

  /**
   Handles the groups in some order until done or cancelled: publishes what they are due, but for
   the tasks whose queue cannot be had and all tasks from a cancellation on.
   */
  method NotifyInOrder(groups: Groups, phones: Phones, x: Context)
    returns (sent: seq<Notification>, ghost order: seq<GroupKey>)
    ensures IsOrder(order, groups.Keys) && sent == Published(AllDue(order, groups, phones), 0, x)
  {
    sent, order := [], [];
    var left: set<GroupKey>, n: nat := groups.Keys, 0;
    assert groups.Keys - groups.Keys == {};
    while left != {}
      invariant IsNotified(order, left, n, sent, groups, phones, x) && (n == 0 || x.Live(n - 1))
      decreases left
    {
      var key :| key in left;
      var more, cancelled, size := NotifyGroup(key, groups[key], phones, n, x);
      OneMoreNotified(order, left, n, sent, groups, phones, x, key);
      sent, order, left, n := sent + more, order + [key], left - {key}, n + size;
      if cancelled {
        order := RestUnpublished(order, groups, phones, left, x);
        return;
      }
    }
    assert groups.Keys - left == groups.Keys;
  }

  /** The groups in `order` have been gone through, all but those left; they were due n tasks. */
  ghost predicate IsNotified(order: seq<GroupKey>, left: set<GroupKey>, n: nat, sent: seq<Notification>, groups: Groups,
                             phones: Phones, x: Context) {
    left <= groups.Keys && IsOrder(order, groups.Keys - left) && n == |AllDue(order, groups, phones)| &&
    sent == Published(AllDue(order, groups, phones), 0, x)
  }

  lemma OneMoreNotified(order: seq<GroupKey>, left: set<GroupKey>, n: nat, sent: seq<Notification>, groups: Groups,
                        phones: Phones, x: Context, key: GroupKey)
    requires IsNotified(order, left, n, sent, groups, phones, x) && key in left
    ensures var due := NotificationsOf(key, groups[key], phones);
            IsNotified(order + [key], left - {key}, n + |due|, sent + Published(due, n, x), groups, phones, x)
  {
    OneMoreGroup(order, groups, phones, key, x);
    OrderPlus(order, groups.Keys, left, key);
  }

  lemma OrderPlus(order: seq<GroupKey>, keys: set<GroupKey>, left: set<GroupKey>, key: GroupKey)
    requires IsOrder(order, keys - left) && key in left && left <= keys
    ensures IsOrder(order + [key], keys - (left - {key}))
  {
  }

  lemma OneMoreDue(order: seq<GroupKey>, groups: Groups, phones: Phones, key: GroupKey)
    requires key in groups && forall k :: k in order ==> k in groups
    ensures AllDue(order + [key], groups, phones) ==
            AllDue(order, groups, phones) + NotificationsOf(key, groups[key], phones)
  {
    assert (order + [key])[..|order|] == order;
  }

  lemma OneMoreGroup(order: seq<GroupKey>, groups: Groups, phones: Phones,
                     key: GroupKey, x: Context)
    requires key in groups && forall k :: k in order ==> k in groups
    ensures var before, due := AllDue(order, groups, phones), NotificationsOf(key, groups[key], phones);
            AllDue(order + [key], groups, phones) == before + due &&
            Published(before + due, 0, x) == Published(before, 0, x) + Published(due, |before|, x)
  {
    OneMoreDue(order, groups, phones, key);
    PublishedFromStart(AllDue(order, groups, phones), NotificationsOf(key, groups[key], phones), x);
  }

  /** After a cancellation the groups left add nothing, in whatever order. */
  lemma {:induction false} RestUnpublished(order: seq<GroupKey>, groups: Groups, phones: Phones,
                                           left: set<GroupKey>, x: Context) returns (all: seq<GroupKey>)
    requires left <= groups.Keys && IsOrder(order, groups.Keys - left) && !x.Live(|AllDue(order, groups, phones)|)
    ensures IsOrder(all, groups.Keys)
    ensures Published(AllDue(all, groups, phones), 0, x) == Published(AllDue(order, groups, phones), 0, x)
    decreases left
  {
    if left == {} {
      all := order;
      assert groups.Keys - left == groups.Keys;
    } else {
      var key :| key in left;
      OneMoreGroup(order, groups, phones, key, x);
      OrderPlus(order, groups.Keys, left, key);
      PublishedNone(NotificationsOf(key, groups[key], phones), |AllDue(order, groups, phones)|, x);
      all := RestUnpublished(order + [key], groups, phones, left - {key}, x);
    }
  }

  /** What was sent for a group: the published part of what it is due, numbered from where its turn came. */
  lemma {:induction false} SentOfGroup(order: seq<GroupKey>, groups: Groups, phones: Phones,
                                       x: Context, k: GroupKey)
    requires NoRepeats(order) && forall j :: j in order ==> j in groups
    ensures k !in order ==> SentFor(Published(AllDue(order, groups, phones), 0, x), k) == []
    ensures k in order ==>
              exists n: nat :: n + |NotificationsOf(k, groups[k], phones)| <= |AllDue(order, groups, phones)| &&
                SentFor(Published(AllDue(order, groups, phones), 0, x), k) ==
                Published(NotificationsOf(k, groups[k], phones), n, x)
  {
    if order != [] {
      var first, key := order[..|order| - 1], order[|order| - 1];
      assert order == first + [key];
      SentOfGroup(first, groups, phones, x, k);
      OneMoreGroup(first, groups, phones, key, x);
      var due, n := NotificationsOf(key, groups[key], phones), |AllDue(first, groups, phones)|;
      NotificationsAddressed(key, groups[key], phones, n, x);
      SentForAppend(Published(AllDue(first, groups, phones), 0, x), Published(due, n, x), key, k);
    }
  }

  /** Each group is sent a subsequence of what it is due, all on its own queue, and nobody else anything. */
  lemma GroupsNotifiedInPart(order: seq<GroupKey>, groups: Groups, phones: Phones,
                             x: Context, k: GroupKey)
    requires IsOrder(order, groups.Keys)
    ensures var sent := SentFor(Published(AllDue(order, groups, phones), 0, x), k);
            if k in groups then IsSubsequence(sent, NotificationsOf(k, groups[k], phones)) else sent == []
  {
    SentOfGroup(order, groups, phones, x, k);
    if k in groups {
      var n: nat :| SentFor(Published(AllDue(order, groups, phones), 0, x), k) ==
        Published(NotificationsOf(k, groups[k], phones), n, x);
      PublishedIsSubsequence(NotificationsOf(k, groups[k], phones), n, x);
    }
  }

  /**
   Every group gets all it is due exactly when the context stays live through every delay and every
   queue can be had; with the context cancelled on entry nothing is sent at all.
   */
  lemma {:induction false} GroupsNotifiedExactly(order: seq<GroupKey>, groups: Groups,
                                                 phones: Phones, x: Context)
    requires NoRepeats(order) && forall j :: j in order ==> j in groups
    ensures AllNotified(order, groups, phones, Published(AllDue(order, groups, phones), 0, x)) <==>
            AllGood(x, 0, |AllDue(order, groups, phones)|)
    ensures !x.Live(0) ==> Published(AllDue(order, groups, phones), 0, x) == []
  {
    if !x.Live(0) {
      PublishedNone(AllDue(order, groups, phones), 0, x);
    }
    if order != [] {
      var first, key := order[..|order| - 1], order[|order| - 1];
      var before, due := AllDue(first, groups, phones), NotificationsOf(key, groups[key], phones);
      assert order == first + [key];
      GroupsNotifiedExactly(first, groups, phones, x);
      OneMoreGroup(first, groups, phones, key, x);
      PublishedAllExactly(due, |before|, x);
      AllGoodJoin(x, 0, |before|, |before| + |due|);
      LastGroupNotified(first, groups, phones, x, key);
    }
  }

  lemma NoRepeatsFirst(first: seq<GroupKey>, key: GroupKey)
    requires NoRepeats(first + [key])
    ensures NoRepeats(first) && key !in first
  {
    var order := first + [key];
    forall i, j | 0 <= i < j < |first| ensures first[i] != first[j] { assert order[i] != order[j]; }
    forall i | 0 <= i < |first| ensures first[i] != key { assert order[i] != order[|first|]; }
  }

  lemma LastGroupNotified(first: seq<GroupKey>, groups: Groups, phones: Phones,
                          x: Context, key: GroupKey)
    requires NoRepeats(first + [key]) && forall j :: j in first + [key] ==> j in groups
    ensures var before, due := AllDue(first, groups, phones), NotificationsOf(key, groups[key], phones);
            var sent, more := Published(before, 0, x), Published(due, |before|, x);
            AllNotified(first + [key], groups, phones, sent + more) <==>
            AllNotified(first, groups, phones, sent) && more == due
  {
    var before, due := AllDue(first, groups, phones), NotificationsOf(key, groups[key], phones);
    var sent, more := Published(before, 0, x), Published(due, |before|, x);
    NoRepeatsFirst(first, key);
    SentOfGroup(first, groups, phones, x, key);
    NotificationsAddressed(key, groups[key], phones, |before|, x);
    SentForAppendAll(sent, more, key);
    assert SentFor(sent + more, key) == more;
    if AllNotified(first + [key], groups, phones, sent + more) {
      assert key in first + [key];
      forall k | k in first ensures SentFor(sent, k) == NotificationsOf(k, groups[k], phones) {
        assert k in first + [key] && k != key;
      }
    }
    if AllNotified(first, groups, phones, sent) && more == due {
      forall k | k in first + [key] ensures SentFor(sent + more, k) == NotificationsOf(k, groups[k], phones) {
        if k != key { assert k in first; }
      }
    }
  }

  /** What the notification phase has sent is part of what each group is due, and nothing else. */
  ghost predicate OnlyDue(groups: Groups, phones: Phones, sent: seq<Notification>) {
    forall k :: if k in groups then IsSubsequence(SentFor(sent, k), NotificationsOf(k, groups[k], phones))
                else SentFor(sent, k) == []
  }

  /**
   The notification phase, whatever order it takes: each group is sent a subsequence of what it is due
   and nobody else anything, and with the context cancelled on entry nothing is sent at all.
   */
  method NotifyAdmins(groups: Groups, phones: Phones, x: Context)
    returns (sent: seq<Notification>, ghost order: seq<GroupKey>)
    ensures OnlyDue(groups, phones, sent) && (!x.Live(0) ==> sent == [])
    ensures IsOrder(order, groups.Keys) && sent == Published(AllDue(order, groups, phones), 0, x)
  {
    sent, order := NotifyInOrder(groups, phones, x);
    OnlyDueInOrder(order, groups, phones, x);
  }

  lemma OnlyDueInOrder(order: seq<GroupKey>, groups: Groups, phones: Phones, x: Context)
    requires IsOrder(order, groups.Keys)
    ensures var sent := Published(AllDue(order, groups, phones), 0, x);
            OnlyDue(groups, phones, sent) && (!x.Live(0) ==> sent == [])
  {
    var sent := Published(AllDue(order, groups, phones), 0, x);
    GroupsNotifiedExactly(order, groups, phones, x);
    forall k ensures if k in groups then IsSubsequence(SentFor(sent, k), NotificationsOf(k, groups[k], phones))
                     else SentFor(sent, k) == []
    {
      GroupsNotifiedInPart(order, groups, phones, x, k);
    }
  }

  /** A notification queue belongs to a single account. */
  lemma NotifyQueueIsOwn(a: Uuid, b: Uuid)
    ensures TenantAdminNotifyQueue(UuidText(a)) == TenantAdminNotifyQueue(UuidText(b)) <==> a == b
  {
    UuidTextInjective(a, b);
    var s, t := TenantAdminNotifyQueue(UuidText(a)), TenantAdminNotifyQueue(UuidText(b));
    assert s[|NOTIFY_QUEUE_PREFIX|..] == UuidText(a) && t[|NOTIFY_QUEUE_PREFIX|..] == UuidText(b);
  }

  // ---------------------------------------------------------------- notifications lost on shutdown

  /**
   A flush with an already cancelled context, as the last one after a cancellation, settles and
   acknowledges the batch but loses every notification it is due: a reply that was observed is
   acknowledged all the same.
   */
  lemma ShutdownLosesNotifications(c: Config, parse: UuidParser, times: seq<Time>, items: seq<QueuedResult>,
                                   answers: seq<Answers>, phones: Phones, x: Context, n: nat, i: nat)
    requires |items| == |answers| == |times| && i < |items| && x.cancelAt == Some(0)
    requires var h := Handled(c, parse, times, items, answers)[i];
             h.observed.Some? && h.observed.value.account != NIL && h.observed.value.tenant in phones &&
             phones[h.observed.value.tenant] != []
    ensures var hs := Handled(c, parse, times, items, answers);
            var k := GroupKey(hs[i].observed.value.tenant, hs[i].observed.value.account);
            var due := NotificationsOf(k, Only(ObservedOf(hs), k), phones);
            hs[i].acked && due != [] && Published(due, n, x) == []
  {
    var hs := Handled(c, parse, times, items, answers);
    var o := hs[i].observed.value;
    var k := GroupKey(o.tenant, o.account);
    ObservedExactly(c, parse, times[i], items[i].result, answers[i]);
    ObservedMember(hs, i);
    OnlyNonEmpty(ObservedOf(hs), k);
    PublishedNone(NotificationsOf(k, Only(ObservedOf(hs), k), phones), n, x);
  }

  lemma {:induction false} ObservedMember(hs: seq<Handling>, i: nat)
    requires i < |hs| && hs[i].observed.Some?
    ensures hs[i].observed.value in ObservedOf(hs)
  {
    var n := |hs| - 1;
    if i < n { ObservedMember(hs[..n], i); }
  }
}
