/**
 The result consumer as it runs: a flush handles its batch result by result against the mutable
 repository, while everything else may run between any two of its calls, and then notifies.
 */
module Flushing {
  import opened Domain
  import opened Settings
  import opened Tables
  import opened Protocol
  import opened Environments
  import opened Runs
  import opened Results
  import opened Consumer
  import opened Publishing

  /**
   What handling one result cannot choose: the row found for its chat, the client's name, the row a
   registration returns first, which calls the database serves, and what others do between them.
   */
  datatype ResultChance = ResultChance(chat: ChatLookup, name: string, chosen: Uuid, up: nat -> bool,
                                       others: nat -> seq<Step>)

  ghost predicate Quiet(ch: ResultChance) {
    forall i: nat :: ch.others(i) == [] && ch.up(i)
  }

  function RowOfTarget(t: Target, name: string): TargetRow {
    TargetRow(t.status, t.lastReplyText, t.repliedAt, t.phone, name, t.account)
  }

  function ReplyAnswers(c: Config, db: Db, now: Time, t: TargetResult, ch: ResultChance): Answers
    requires IsReply(t)
  {
    var existing := RowOf(db, t.targetId, ch.name);
    if IsDuplicate(t, existing) || !Registrable(db, t.campaignId, t.phone, ch.chosen)
    then Answers(ch.chat, existing, None, None, true)
    else
      Answers(ch.chat, existing, Some(db.campaigns[t.campaignId].tenant),
              RowOf(ReportDb(c, db, now, DirectCall(t), ch.chosen), t.targetId, ch.name), true)
  }

  lemma RouteOfStatus(c: Config, parse: UuidParser, now: Time, t: TargetResult)
    requires !IsReply(t)
    ensures !Route(c, parse, now, t).Register?
  {
  }

  lemma RetryIsFailure(c: Config, parse: UuidParser, now: Time, t: TargetResult, db: Db, chosen: Uuid)
    requires Route(c, parse, now, t).Retry?
    ensures var f, call := FailureOf(parse, now, t), Route(c, parse, now, t);
            ClassifyErrorCode(f.code) == Retryable && f.readAt == now && call.target == f.target &&
            ApplyCall(c, db, now, call, chosen) == FailureDb(c, db, f)
  {
    RetryCarriesFailure(c, parse, now, t);
    FailureCallMatchesProtocol(c, parse, now, t, db, chosen, now);
  }

  /** What the tables answer when nothing else runs and no call fails. */
  function AnswersIn(c: Config, parse: UuidParser, db: Db, now: Time, r: TargetResult, ch: ResultChance): Answers {
    match Resolve(r, ch.chat)
    case None => Answers(ch.chat, None, None, None, true)
    case Some(t) =>
      if IsReply(t) then ReplyAnswers(c, db, now, t, ch)
      else Answers(ch.chat, None, None, None, CallSucceeds(db, Route(c, parse, now, t), ch.chosen))
  }

  /** The tables after a result, when nothing else runs and no call fails. */
  function TablesAfter(c: Config, parse: UuidParser, db: Db, now: Time, r: TargetResult, ch: ResultChance): Db {
    match Resolve(r, ch.chat)
    case None => db
    case Some(t) =>
      if !IsReply(t) then ApplyCall(c, db, now, Route(c, parse, now, t), ch.chosen)
      else if IsDuplicate(t, RowOf(db, t.targetId, ch.name)) then db
      else ReportDb(c, db, now, DirectCall(t), ch.chosen)
  }

  lemma FailureTables(c: Config, db: Db, f: Failure)
    ensures FailureDb(c, db, f) ==
            db.(targets := FailTargets(db, f.target, f.code, f.message, f.readAt + c.RetryDelay(), c.maxRetryAttempts),
                accounts := FailAccounts(db, f.target, f.account, f.code, CooldownFor(c, f), c.maxRetryAttempts))
  {
  }

  /**
   An undisturbed delivery is returned to the queue exactly when its target is known and its call fails
   on the tables: for a new reply, because no target of the campaign has the phone, or its own target is
   gone; for any other result, because the status call errs.
   */
  lemma UndisturbedNackExactly(c: Config, parse: UuidParser, db: Db, now: Time, r: TargetResult, ch: ResultChance)
    ensures !Handle(c, parse, now, r, AnswersIn(c, parse, db, now, r, ch)).acked <==>
            Resolve(r, ch.chat).Some? &&
            var t := Resolve(r, ch.chat).value;
            if IsReply(t) then
              !(t.targetId in db.targets && Carries(db.targets[t.targetId], t.replyText.value, t.timestamp)) &&
              !(Registrable(db, t.campaignId, t.phone, ch.chosen) && t.targetId in db.targets)
            else !CallSucceeds(db, Route(c, parse, now, t), ch.chosen)
  {
    var resolved := Resolve(r, ch.chat);
    if resolved.Some? && IsReply(resolved.value) {
      var t := resolved.value;
      RegisterKeepsTargets(c, db, now, t, ch);
    }
  }

  lemma RegisterKeepsTargets(c: Config, db: Db, now: Time, t: TargetResult, ch: ResultChance)
    requires IsReply(t)
    ensures ReportDb(c, db, now, DirectCall(t), ch.chosen).targets.Keys == db.targets.Keys
  {
  }

  lemma LastIn(trace: seq<Step>, n: nat, s: Step)
    requires n <= |trace|
    ensures s in (trace + [s])[n..]
  {
    assert (trace + [s])[n..] == trace[n..] + [s];
  }

  lemma StaysIn(trace: seq<Step>, more: seq<Step>, n: nat, s: Step)
    requires n <= |trace| && s in trace[n..]
    ensures s in (trace + more)[n..]
  {
    assert (trace + more)[n..] == trace[n..] + more;
  }

  predicate SettledAs(items: seq<QueuedResult>, hs: seq<Handling>, settled: seq<Settlement>) {
    |settled| == |items| == |hs| &&
    forall i :: 0 <= i < |settled| ==> settled[i] == Settlement(items[i].tag, hs[i].acked)
  }

  ghost predicate IsHandled(c: Config, parse: UuidParser, times: seq<Time>, items: seq<QueuedResult>,
                            answers: seq<Answers>, hs: seq<Handling>) {
    |hs| == |items| == |answers| == |times| &&
    forall i :: 0 <= i < |hs| ==> hs[i] == Handle(c, parse, times[i], items[i].result, answers[i])
  }

  lemma HandledIs(c: Config, parse: UuidParser, times: seq<Time>, items: seq<QueuedResult>, answers: seq<Answers>,
                  hs: seq<Handling>)
    requires IsHandled(c, parse, times, items, answers, hs)
    ensures hs == Handled(c, parse, times, items, answers)
  {
  }

  /** The reply was sent from the phone its own target has. */
  predicate IsOwnPhone(r: TargetResult, a: Answers) {
    var t := Resolve(r, a.chat);
    t.Some? && a.loaded.Some? && a.loaded.value.phone == t.value.phone
  }

  /** The pairs cached for replies from their targets' own phones are persisted. */
  predicate BlocksPersisted(items: seq<QueuedResult>, answers: seq<Answers>, hs: seq<Handling>,
                            blocked: set<(Uuid, Phone)>)
  {
    |items| == |answers| == |hs| &&
    forall i :: 0 <= i < |hs| && hs[i].block.Some? && IsOwnPhone(items[i].result, answers[i]) ==>
      hs[i].block.value in blocked
  }

  function AdminOf(parse: UuidParser, items: seq<QueuedResult>): seq<AdminMapping> {
    if items == [] then []
    else
      var m := AdminMappingOf(parse, items[|items| - 1].result);
      AdminOf(parse, items[..|items| - 1]) + if m.Some? then [m.value] else []
  }

  /**
   What a flush has done so far: deliveries settled, replies observed, pairs cached as blocked, admin
   chats saved.
   */
  datatype Batch = Batch(settled: seq<Settlement>, observed: seq<ObservedReply>, blocked: seq<(Uuid, Phone)>,
                         admin: seq<AdminMapping>)
  {
    function Plus(tag: nat, h: Handling, m: Option<AdminMapping>): Batch {
      Batch(settled + [Settlement(tag, h.acked)],
            observed + (if h.observed.Some? then [h.observed.value] else []),
            blocked + (if h.block.Some? then [h.block.value] else []),
            admin + (if m.Some? then [m.value] else []))
    }
  }

  /** The batch comes of handling these results on these answers. */
  ghost predicate Settling(c: Config, parse: UuidParser, times: seq<Time>, items: seq<QueuedResult>,
                           answers: seq<Answers>, hs: seq<Handling>, b: Batch)
  {
    IsHandled(c, parse, times, items, answers, hs) && SettledAs(items, hs, b.settled) &&
    b.observed == ObservedOf(hs) && b.blocked == BlocksOf(hs) && b.admin == AdminOf(parse, items)
  }

  lemma OneMoreHandled(c: Config, parse: UuidParser, times: seq<Time>, items: seq<QueuedResult>, item: QueuedResult,
                       answers: seq<Answers>, hs: seq<Handling>, at: Time, a: Answers, h: Handling)
    requires IsHandled(c, parse, times, items, answers, hs) && h == Handle(c, parse, at, item.result, a)
    ensures IsHandled(c, parse, times + [at], items + [item], answers + [a], hs + [h])
  {
  }

  lemma OneMoreTag(items: seq<QueuedResult>, hs: seq<Handling>, settled: seq<Settlement>, item: QueuedResult,
                   h: Handling)
    requires SettledAs(items, hs, settled)
    ensures SettledAs(items + [item], hs + [h], settled + [Settlement(item.tag, h.acked)])
  {
  }

  lemma OneMoreSeen(hs: seq<Handling>, h: Handling)
    ensures ObservedOf(hs + [h]) == ObservedOf(hs) + (if h.observed.Some? then [h.observed.value] else [])
    ensures BlocksOf(hs + [h]) == BlocksOf(hs) + (if h.block.Some? then [h.block.value] else [])
  {
    assert (hs + [h])[..|hs|] == hs;
  }

  lemma OneMorePersisted(items: seq<QueuedResult>, answers: seq<Answers>, hs: seq<Handling>,
                         blocked: set<(Uuid, Phone)>,
                         more: set<(Uuid, Phone)>, item: QueuedResult, a: Answers, h: Handling)
    requires BlocksPersisted(items, answers, hs, blocked) && blocked <= more
    requires h.block.Some? && IsOwnPhone(item.result, a) ==> h.block.value in more
    ensures BlocksPersisted(items + [item], answers + [a], hs + [h], more)
  {
  }

  lemma OneMoreSettled(c: Config, parse: UuidParser, times: seq<Time>, items: seq<QueuedResult>, item: QueuedResult,
                       answers: seq<Answers>, hs: seq<Handling>, b: Batch, at: Time, a: Answers, h: Handling)
    requires Settling(c, parse, times, items, answers, hs, b) && h == Handle(c, parse, at, item.result, a)
    ensures Settling(c, parse, times + [at], items + [item], answers + [a], hs + [h],
                     b.Plus(item.tag, h, AdminMappingOf(parse, item.result)))
  {
    assert (items + [item])[..|items|] == items;
    OneMoreHandled(c, parse, times, items, item, answers, hs, at, a, h);
    OneMoreTag(items, hs, b.settled, item, h);
    OneMoreSeen(hs, h);
  }

  /** These results are handled, and what is to be cached for them is persisted. */
  ghost predicate IsDone(c: Config, parse: UuidParser, times: seq<Time>, items: seq<QueuedResult>,
                         answers: seq<Answers>,
                         hs: seq<Handling>, b: Batch, blocked: set<(Uuid, Phone)>)
  {
    Settling(c, parse, times, items, answers, hs, b) && BlocksPersisted(items, answers, hs, blocked)
  }

  lemma OneMoreDone(c: Config, parse: UuidParser, times: seq<Time>, items: seq<QueuedResult>, item: QueuedResult,
                    answers: seq<Answers>, hs: seq<Handling>, b: Batch, at: Time, a: Answers, h: Handling,
                    blocked: set<(Uuid, Phone)>, more: set<(Uuid, Phone)>)
    requires IsDone(c, parse, times, items, answers, hs, b, blocked) && blocked <= more
    requires h == Handle(c, parse, at, item.result, a)
    requires h.block.Some? && IsOwnPhone(item.result, a) ==> h.block.value in more
    ensures IsDone(c, parse, times + [at], items + [item], answers + [a], hs + [h],
                   b.Plus(item.tag, h, AdminMappingOf(parse, item.result)), more)
  {
    OneMoreSettled(c, parse, times, items, item, answers, hs, b, at, a, h);
    OneMorePersisted(items, answers, hs, blocked, more, item, a, h);
  }

  lemma AllDone(c: Config, parse: UuidParser, times: seq<Time>, items: seq<QueuedResult>, answers: seq<Answers>,
                hs: seq<Handling>, b: Batch, blocked: set<(Uuid, Phone)>)
    requires IsDone(c, parse, times, items, answers, hs, b, blocked)
    ensures |times| == |answers| == |items|
    ensures IsDone(c, parse, times, items, answers, Handled(c, parse, times, items, answers), b, blocked)
  {
    HandledIs(c, parse, times, items, answers, hs);
  }

  class ResultConsumer {
    const env: Environment
    const parse: UuidParser
    var results: seq<QueuedResult>

    constructor (env: Environment, parse: UuidParser)
      ensures this.env == env && this.parse == parse && results == []
    {
      this.env, this.parse, results := env, parse, [];
    }

    /** The consumer is the only one to handle failures, and has none in hand. */
    ghost predicate Ready()
      reads this, env, env.repo
    {
      env.Valid() && env.me.TheConsumer? && env.world.failure.None?
    }

    /** A status update or an unknown mark. */
    method ReportStatus(up: bool, call: RepoCall, chosen: Uuid) returns (ok: bool)
      requires Ready() && (call.Update? || call.MarkUnknown?)
      modifies env`trace, env`world, env.repo
      ensures Ready() && ok == (up && CallSucceeds(old(env.world.db), call, chosen)) &&
              env.world.now == old(env.world.now)
      ensures env.trace == if up then old(env.trace) + [Elsewhere(Report(call, chosen))] else old(env.trace)
      ensures env.world.db == if up then ReportDb(env.c, old(env.world.db), old(env.world.now), call, chosen)
              else old(env.world.db)
    {
      match call {
        case Update(target, status, lastError, sentAt) =>
          ok := env.repo.UpdateTargetStatus(up, env.world.now, target, status, lastError, sentAt);
        case MarkUnknown(target, code, message) =>
          ok := env.repo.MarkTargetDeliveryUnknown(up, target, code, message);
      }
      if up {
        env.RecordOther(Report(call, chosen));
      }
    }

    method ApplyFailure(up: bool, f: Failure) returns (ok: bool)
      requires env.Valid() && env.me.TheConsumer? && env.world.failure == Some(f)
      modifies env`trace, env`world, env.repo
      ensures Ready() && env.world.now == old(env.world.now) && ok == (up && f.target in old(env.world.db).targets)
      ensures env.trace == old(env.trace) + [Elsewhere(if up then OtherStep.ApplyFailure else DropFailure)]
      ensures env.world.db == if up then FailureDb(env.c, old(env.world.db), f) else old(env.world.db)
    {
      FailureTables(env.c, env.world.db, f);
      var r := env.repo.ApplyRetryableFailure(up, f.target, f.account, f.code, f.message, f.readAt + env.c.RetryDelay(),
                                              CooldownFor(env.c, f), env.c.maxRetryAttempts);
      env.RecordOther(if up then OtherStep.ApplyFailure else DropFailure);
      return r.Ok?;
    }

    method ReadClock(f: Failure, others: seq<Step>) returns (ghost more: seq<Step>)
      requires Ready() && ClassifyErrorCode(f.code) == Retryable && f.readAt == env.world.now
      modifies env`trace, env`world, env.repo
      ensures env.Valid() && env.world.failure == Some(f)
      ensures env.trace == old(env.trace) + [Elsewhere(ReadFailure(f.target, f.account, f.code, f.message))] + more
      ensures others == [] ==> env.world.db == old(env.world.db) && env.world.now == old(env.world.now)
    {
      env.RecordOther(ReadFailure(f.target, f.account, f.code, f.message));
      more := env.Interleave(others);
    }

    /** handleSendFailure for a retryable code: the clock is read first, the repository called later. */
    method HandleFailure(up: bool, f: Failure, others: seq<Step>) returns (ok: bool)
      requires Ready() && ClassifyErrorCode(f.code) == Retryable && f.readAt == env.world.now
      modifies env`trace, env`world, env.repo
      ensures Ready() && old(env.trace) <= env.trace && (ok ==> up)
      ensures Elsewhere(if up then OtherStep.ApplyFailure else DropFailure) in env.trace[|old(env.trace)|..]
      ensures others == [] ==>
                ok == (up && f.target in old(env.world.db).targets) && env.world.now == old(env.world.now) &&
                env.world.db == if up then FailureDb(env.c, old(env.world.db), f) else old(env.world.db)
    {
      ghost var more := ReadClock(f, others);
      ok := ApplyFailure(up, f);
      assert env.trace[|old(env.trace)|..] == [Elsewhere(ReadFailure(f.target, f.account, f.code, f.message))] + more +
                                              [Elsewhere(if up then OtherStep.ApplyFailure else DropFailure)];
    }

    method Register(up: bool, campaign: Uuid, phone: Phone, text: string, at: Time, chosen: Uuid)
      returns (tenant: Option<Uuid>)
      requires Ready()
      modifies env`trace, env`world, env.repo
      ensures Ready() && env.world.now == old(env.world.now)
      ensures var call := RepoCall.Register(campaign, phone, text, at);
              (tenant == if up && CallSucceeds(old(env.world.db), call, chosen)
                         then Some(old(env.world.db).campaigns[campaign].tenant) else None) &&
              (env.trace == if up then old(env.trace) + [Elsewhere(Report(call, chosen))] else old(env.trace)) &&
              env.world.db == if up then ReportDb(env.c, old(env.world.db), old(env.world.now), call, chosen)
              else old(env.world.db)
    {
      var r := env.repo.RegisterReply(up, campaign, phone, text, at, env.c.IsUnsubscribeReply(text), chosen);
      if up {
        env.RecordOther(Report(RepoCall.Register(campaign, phone, text, at), chosen));
      }
      return if r.Ok? then Some(r.value) else None;
    }

    method RegisterAfter(others: seq<Step>, up: bool, t: TargetResult, chosen: Uuid) returns (tenant: Option<Uuid>)
      requires Ready() && IsReply(t)
      modifies env`trace, env`world, env.repo
      ensures Ready() && old(env.trace) <= env.trace
      ensures tenant.Some? ==> Elsewhere(Report(DirectCall(t), chosen)) in env.trace[|old(env.trace)|..]
      ensures tenant.Some? && env.c.IsUnsubscribeReply(t.replyText.value) ==>
              (tenant.value, t.phone) in env.world.db.blocked
      ensures others == [] && up ==>
                env.world.now == old(env.world.now) &&
                env.world.db == ReportDb(env.c, old(env.world.db), old(env.world.now), DirectCall(t), chosen) &&
                tenant == if Registrable(old(env.world.db), t.campaignId, t.phone, chosen)
                          then Some(old(env.world.db).campaigns[t.campaignId].tenant) else None
    {
      ghost var _ := env.Interleave(others);
      LastIn(env.trace, |old(env.trace)|, Elsewhere(Report(DirectCall(t), chosen)));
      tenant := Register(up, t.campaignId, t.phone, t.replyText.value, t.timestamp, chosen);
    }

    method ReadAfter(others: seq<Step>, up: bool, id: Uuid, name: string)
      returns (row: Option<TargetRow>, ghost more: seq<Step>)
      requires Ready()
      modifies env`trace, env`world, env.repo
      ensures Ready() && row == if up then RowOf(env.world.db, id, name) else None
      ensures env.trace == old(env.trace) + more && old(env.world.db).blocked <= env.world.db.blocked
      ensures others == [] ==> env.world.db == old(env.world.db) && env.world.now == old(env.world.now)
    {
      more := env.Interleave(others);
      row := ReadTarget(up, id, name);
    }

    method ReadTarget(up: bool, id: Uuid, name: string) returns (row: Option<TargetRow>)
      requires Ready()
      ensures row == if up then RowOf(env.world.db, id, name) else None
    {
      var r := env.repo.GetCampaignTargetByID(up, id);
      if r.Err? {
        return None;
      }
      return Some(RowOfTarget(r.value, name));
    }

    /** A result that is not a reply: the call its status and code lead to, if any. */
    method HandleStatus(t: TargetResult, ch: ResultChance) returns (ok: bool, call: RepoCall, ghost at: Time)
      requires Ready() && !IsReply(t)
      modifies env`trace, env`world, env.repo
      ensures Ready() && old(env.trace) <= env.trace && call == Route(env.c, parse, at, t) && (call == NoCall ==> ok)
      ensures ok && call != NoCall ==>
                Elsewhere(if call.Retry? then OtherStep.ApplyFailure
                          else Report(call, ch.chosen)) in env.trace[|old(env.trace)|..]
      ensures Quiet(ch) ==>
                at == old(env.world.now) && env.world.now == old(env.world.now) &&
                ok == CallSucceeds(old(env.world.db), call, ch.chosen) &&
                env.world.db == ApplyCall(env.c, old(env.world.db), old(env.world.now), call, ch.chosen)
    {
      at := env.world.now;
      call := Route(env.c, parse, env.world.now, t);
      RouteOfStatus(env.c, parse, env.world.now, t);
      if call == NoCall {
        ok := true;
      } else if call.Retry? {
        var f := FailureOf(parse, env.world.now, t);
        RetryIsFailure(env.c, parse, env.world.now, t, env.world.db, ch.chosen);
        ok := HandleFailure(ch.up(0), f, ch.others(1));
      } else {
        ok := ReportStatus(ch.up(0), call, ch.chosen);
        assert ok ==> env.trace[|old(env.trace)|..] == [Elsewhere(Report(call, ch.chosen))];
      }
    }

    /**
     A reply: a duplicate is acknowledged, any other registered and its target read back. `a` is what
     the repository answered.
     */
    method HandleReply(t: TargetResult, ch: ResultChance) returns (h: Handling, ghost a: Answers)
      requires Ready() && IsReply(t)
      modifies env`trace, env`world, env.repo
      ensures Ready() && old(env.trace) <= env.trace && h == HandleReplied(env.c, t, a) && a.chat == ch.chat
      ensures h.observed.Some? ==> Elsewhere(Report(DirectCall(t), ch.chosen)) in env.trace[|old(env.trace)|..]
      ensures h.acked && h.call == NoCall ==>
                t.targetId in old(env.world.db).targets &&
                Carries(old(env.world.db).targets[t.targetId], t.replyText.value, t.timestamp)
      ensures h.block.Some? && h.block.value.1 == t.phone ==> h.block.value in env.world.db.blocked
      ensures Quiet(ch) ==>
                a == ReplyAnswers(env.c, old(env.world.db), old(env.world.now), t, ch) &&
                env.world.db == if IsDuplicate(t, RowOf(old(env.world.db), t.targetId, ch.name)) then old(env.world.db)
                                else ReportDb(env.c, old(env.world.db), old(env.world.now), DirectCall(t), ch.chosen)
    {
      var call := DirectCall(t);
      var existing := ReadTarget(ch.up(0), t.targetId, ch.name);
      if IsDuplicate(t, existing) {
        a := Answers(ch.chat, existing, None, None, true);
        return Handling(true, NoCall, None, None), a;
      }
      var tenant := RegisterAfter(ch.others(1), ch.up(1), t, ch.chosen);
      if tenant.None? {
        a := Answers(ch.chat, existing, None, None, true);
        return Handling(false, call, None, None), a;
      }
      ghost var mid := env.trace;
      var loaded, more := ReadAfter(ch.others(2), ch.up(2), t.targetId, ch.name);
      StaysIn(mid, more, |old(env.trace)|, Elsewhere(Report(DirectCall(t), ch.chosen)));
      a := Answers(ch.chat, existing, tenant, loaded, true);
      if loaded.None? {
        return Handling(false, call, None, None), a;
      }
      var target := loaded.value;
      var block: Option<(Uuid, Phone)> := None;
      if env.c.IsUnsubscribeReply(t.replyText.value) {
        block := Some((tenant.value, target.phone));
      }
      var reply := ReplyInfo(target.phone, target.clientName, t.replyText.value, t.timestamp);
      var observed := ObservedReply(tenant.value, ReplyAccountID(t.tenantAccountId, target.account), reply);
      return Handling(true, call, Some(observed), block), a;
    }

    /**
     One delivered result. It is handled as Handle says, on what the repository answered; where it is
     acknowledged, the call it led to was made and succeeded, and is a step of the protocol run; a reply
     acknowledged without a call is one its target's row carries. A pair to be cached as blocked is
     persisted if the reply came from the target's own phone.
     */
    method HandleResult(r: TargetResult, ch: ResultChance)
      returns (h: Handling, admin: Option<AdminMapping>, ghost at: Time, ghost a: Answers)
      requires Ready()
      modifies env`trace, env`world, env.repo
      ensures Ready() && old(env.trace) <= env.trace && h == Handle(env.c, parse, at, r, a)
      ensures admin == AdminMappingOf(parse, r)
      ensures h.block.Some? && IsOwnPhone(r, a) ==> h.block.value in env.world.db.blocked
      ensures h.acked && h.call != NoCall ==>
                Elsewhere(if h.call.Retry? then OtherStep.ApplyFailure
                          else Report(h.call, ch.chosen)) in env.trace[|old(env.trace)|..]
      ensures Resolve(r, ch.chat).Some? && h.acked && h.call == NoCall ==>
                var t := Resolve(r, ch.chat).value;
                IsReply(t) ==>
                  t.targetId in old(env.world.db).targets &&
                  Carries(old(env.world.db).targets[t.targetId], t.replyText.value, t.timestamp)
      ensures Quiet(ch) ==>
                at == old(env.world.now) &&
                a == AnswersIn(env.c, parse, old(env.world.db), old(env.world.now), r, ch) &&
                env.world.db == TablesAfter(env.c, parse, old(env.world.db), old(env.world.now), r, ch)
    {
      at, admin := env.world.now, None;
      var resolved := Resolve(r, ch.chat);
      AdminMappingExactly(parse, r, ch.chat);
      if resolved.None? {
        if r.chatId != "" && IsAdminNotificationResult(r) && !IsBlank(r.phone) {
          var account := ResultAccountID(parse, r);
          if account != NIL {
            admin := Some(AdminMapping(r.chatId, r.tenantId, account, r.phone, r.messengerType));
          }
        }
        a := Answers(ch.chat, None, None, None, true);
        h := Handling(true, NoCall, None, None);
        return;
      }
      var t := resolved.value;
      if IsReply(t) {
        h, a := HandleReply(t, ch);
      } else {
        var ok, call;
        ok, call, at := HandleStatus(t, ch);
        a := Answers(ch.chat, None, None, None, ok);
        h := Handling(ok, call, None, None);
      }
    }

    /** The next result of the batch. */
    method SettleNext(items: seq<QueuedResult>, i: nat, ch: ResultChance, b: Batch, ghost times: seq<Time>,
                      ghost answers: seq<Answers>, ghost hs: seq<Handling>)
      returns (next: Batch, ghost at: Time, ghost a: Answers, ghost h: Handling)
      requires Ready() && i < |items| && IsDone(env.c, parse, times, items[..i], answers, hs, b, env.world.db.blocked)
      modifies env`trace, env`world, env.repo
      ensures Ready() && old(env.trace) <= env.trace
      ensures IsDone(env.c, parse, times + [at], items[..i + 1], answers + [a], hs + [h], next, env.world.db.blocked)
    {
      var handling, m;
      handling, m, at, a := HandleResult(items[i].result, ch);
      h := handling;
      next := b.Plus(items[i].tag, handling, m);
      assert items[..i] + [items[i]] == items[..i + 1];
      BlockedSince(env.c, env.start, old(env.trace), env.trace);
      OneMoreDone(env.c, parse, times, items[..i], items[i], answers, hs, b, at, a, h, old(env.world.db.blocked),
                  env.world.db.blocked);
    }

    /**
     The loop over the batch. Each delivery is settled exactly once, in arrival order; the observed
     replies and blocklist additions are those of handling the results one by one.
     */
    method SettleBatch(items: seq<QueuedResult>, chances: nat -> ResultChance)
      returns (b: Batch, ghost times: seq<Time>, ghost answers: seq<Answers>)
      requires Ready()
      modifies env`trace, env`world, env.repo
      ensures Ready() && old(env.trace) <= env.trace && |times| == |answers| == |items|
      ensures IsDone(env.c, parse, times, items, answers, Handled(env.c, parse, times, items, answers), b,
                     env.world.db.blocked)
    {
      b, times, answers := Batch([], [], [], []), [], [];
      ghost var hs: seq<Handling> := [];
      for i := 0 to |items|
        invariant Ready() && old(env.trace) <= env.trace
        invariant IsDone(env.c, parse, times, items[..i], answers, hs, b, env.world.db.blocked)
      {
        ghost var at, a, h;
        b, at, a, h := SettleNext(items, i, chances(i), b, times, answers, hs);
        times, answers, hs := times + [at], answers + [a], hs + [h];
      }
      assert items[..|items|] == items;
      AllDone(env.c, parse, times, items, answers, hs, b, env.world.db.blocked);
    }

    /**
     Drains the queue and settles it, then notifies. Whatever fails and whatever runs between its calls, the
     flush is a stretch of a protocol run; every delivery is settled once; and the notifications are the
     published part of what the replies observed in this batch are due.
     */
    method Flush(chances: nat -> ResultChance, phones: Phones, x: Context)
      returns (settled: seq<Settlement>, blocked: seq<(Uuid, Phone)>, admin: seq<AdminMapping>, sent: seq<Notification>,
               groups: Groups,
               ghost times: seq<Time>, ghost answers: seq<Answers>, ghost order: seq<GroupKey>)
      requires Ready()
      modifies this`results, env`trace, env`world, env.repo
      ensures Ready() && old(env.trace) <= env.trace && results == [] && |times| == |answers| == |old(results)|
      ensures var hs := Handled(env.c, parse, times, old(results), answers);
              SettledAs(old(results), hs, settled) && blocked == BlocksOf(hs) && IsGrouping(ObservedOf(hs), groups) &&
              BlocksPersisted(old(results), answers, hs, env.repo.blocked)
      ensures admin == AdminOf(parse, old(results))
      ensures IsOrder(order, groups.Keys) && sent == Published(AllDue(order, groups, phones), 0, x)
      ensures OnlyDue(groups, phones, sent) && (!x.Live(0) ==> sent == [])
    {
      var toProcess := results;
      results := [];
      var b: Batch;
      b, times, answers := SettleBatch(toProcess, chances);
      settled, blocked, admin := b.settled, b.blocked, b.admin;
      groups := GroupReplies(b.observed);
      sent, order := NotifyAdmins(groups, phones, x);
    }
  }
}
