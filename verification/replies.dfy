/** What becomes of a reply when nothing disturbs its handling, read off the tables before and after. */
module Replies {
  import opened Domain
  import opened Settings
  import opened Tables
  import opened Protocol
  import opened Results
  import opened Consumer
  import opened Flushing
  import opened Columns

  /** The result resolves to the reply t. */
  predicate ResolvesToReply(r: TargetResult, ch: ResultChance, t: TargetResult) {
    Resolve(r, ch.chat) == Some(t) && t.status == Replied && t.replyText.Some?
  }

  /** The reply is from the phone of its own target, in that target's campaign. */
  predicate IsFromTarget(db: Db, t: TargetResult) {
    t.targetId in db.targets && db.targets[t.targetId].campaign == t.campaignId &&
    db.targets[t.targetId].phone == t.phone
  }

  /** A reply that its target's row carries already is acknowledged and leaves no trace. */
  lemma KnownReplyLeavesNoTrace(c: Config, parse: UuidParser, db: Db, now: Time, r: TargetResult, ch: ResultChance,
                                t: TargetResult)
    requires ResolvesToReply(r, ch, t)
    requires t.targetId in db.targets && Carries(db.targets[t.targetId], t.replyText.value, t.timestamp)
    ensures Handle(c, parse, now, r, AnswersIn(c, parse, db, now, r, ch)) == Handling(true, NoCall, None, None)
    ensures TablesAfter(c, parse, db, now, r, ch) == db
  {
  }

  lemma OtherReplyTables(c: Config, parse: UuidParser, db: Db, now: Time, r: TargetResult, ch: ResultChance,
                         t: TargetResult)
    requires ResolvesToReply(r, ch, t)
    requires t.targetId in db.targets ==> !Carries(db.targets[t.targetId], t.replyText.value, t.timestamp)
    ensures TablesAfter(c, parse, db, now, r, ch) ==
            RegisterReply(db, t.campaignId, t.phone, t.replyText.value, t.timestamp,
                          c.IsUnsubscribeReply(t.replyText.value), ch.chosen)
  {
  }

  /** Some account can be had for the row of a reply to the target. */
  predicate HasAccount(db: Db, id: Uuid)
    requires id in db.targets
  {
    db.targets[id].account.Some? ||
    exists i :: 0 <= i < |db.accountOrder| && IsOwnedAt(db, db.accountOrder, db.targets[id].tenant, i)
  }

  /** The row a registration finds: one of the campaign's targets with the phone. */
  predicate Finds(db: Db, t: TargetResult, chosen: Uuid) {
    t.campaignId in db.campaigns && chosen in db.targets && db.targets[chosen].campaign == t.campaignId &&
    db.targets[chosen].phone == t.phone && HasAccount(db, chosen)
  }

  /**
   Any other reply, be it of other text, more than two minutes apart, or over another status, is registered where a
   target is found: one more row in `replies`, every target of the campaign with that phone carries the reply, and the
   phone is blocked for the tenant if it unsubscribes.
   */
  lemma OtherReplyIsRegistered(c: Config, parse: UuidParser, db: Db, now: Time, r: TargetResult, ch: ResultChance,
                               t: TargetResult) returns (account: Uuid)
    requires ResolvesToReply(r, ch, t) && Finds(db, t, ch.chosen)
    requires t.targetId in db.targets ==> !Carries(db.targets[t.targetId], t.replyText.value, t.timestamp)
    ensures IsReplyAccount(db, ch.chosen, Some(account))
    ensures var after, tenant := TablesAfter(c, parse, db, now, r, ch), db.campaigns[t.campaignId].tenant;
            after.replies == db.replies + [ReplyRow(ch.chosen, account, t.replyText.value, t.timestamp)] &&
            after.blocked ==
            db.blocked + (if c.IsUnsubscribeReply(t.replyText.value) then {(tenant, t.phone)} else {}) &&
            after.targets.Keys == db.targets.Keys &&
            forall id :: id in db.targets ==>
              db.targets[id].campaign == t.campaignId && db.targets[id].phone == t.phone ==>
                Carries(after.targets[id], t.replyText.value, t.timestamp)
  {
    OtherReplyTables(c, parse, db, now, r, ch, t);
    var a := ReplyByColumns(db, t.campaignId, t.phone, t.replyText.value, t.timestamp,
                            c.IsUnsubscribeReply(t.replyText.value), ch.chosen);
    account := a.value;
    FoundIsRegistrable(db, t, ch.chosen);
    RepliedByColumns(db, t.campaignId, t.phone, t.replyText.value, t.timestamp,
                     c.IsUnsubscribeReply(t.replyText.value), ch.chosen);
  }

  /**
   Such a reply is acknowledged exactly when a target is found and its own target exists. It is then observed under the
   campaign's tenant, the account that reported it or else dosed its target, and the target's own phone, which is to be
   cached as blocked exactly when it unsubscribes.
   */
  lemma OtherReplyIsObserved(c: Config, parse: UuidParser, db: Db, now: Time, r: TargetResult, ch: ResultChance,
                             t: TargetResult)
    requires ResolvesToReply(r, ch, t)
    requires t.targetId in db.targets ==> !Carries(db.targets[t.targetId], t.replyText.value, t.timestamp)
    ensures var h := Handle(c, parse, now, r, AnswersIn(c, parse, db, now, r, ch));
            if Finds(db, t, ch.chosen) && t.targetId in db.targets then
              var tenant, row := db.campaigns[t.campaignId].tenant, db.targets[t.targetId];
              var account := if t.tenantAccountId != NIL then t.tenantAccountId
                             else if row.account.Some? then row.account.value else NIL;
              h.acked &&
              h.observed == Some(ObservedReply(tenant, account,
                                               ReplyInfo(row.phone, ch.name, t.replyText.value, t.timestamp))) &&
              h.block == if c.IsUnsubscribeReply(t.replyText.value) then Some((tenant, row.phone)) else None
            else !h.acked && h.observed.None? && h.block.None?
  {
    FoundIsRegistrable(db, t, ch.chosen);
    RegisteredRow(c, db, now, t, ch);
  }

  lemma FoundIsRegistrable(db: Db, t: TargetResult, chosen: Uuid)
    ensures Finds(db, t, chosen) <==> Registrable(db, t.campaignId, t.phone, chosen)
  {
    if chosen in db.targets {
      FirstAccountIsFirst(db, db.accountOrder, db.targets[chosen].tenant);
    }
  }

  lemma RegisteredRow(c: Config, db: Db, now: Time, t: TargetResult, ch: ResultChance)
    requires IsReply(t)
    ensures var after := ReportDb(c, db, now, DirectCall(t), ch.chosen);
            after.targets.Keys == db.targets.Keys &&
            (t.targetId in db.targets ==>
               after.targets[t.targetId].phone == db.targets[t.targetId].phone &&
               after.targets[t.targetId].account == db.targets[t.targetId].account)
  {
  }

  /**
   So an acknowledged reply from its target's own phone is stored: afterwards its target's row carries it, and if it
   unsubscribes and its text is not the one that was stored, its phone is blocked for the campaign's tenant.
   */
  lemma AcknowledgedReplyIsStored(c: Config, parse: UuidParser, db: Db, now: Time, r: TargetResult, ch: ResultChance,
                                  t: TargetResult)
    requires ResolvesToReply(r, ch, t)
    requires t.targetId in db.targets ==> IsFromTarget(db, t)
    requires Handle(c, parse, now, r, AnswersIn(c, parse, db, now, r, ch)).acked
    ensures var after := TablesAfter(c, parse, db, now, r, ch);
            t.targetId in db.targets && t.targetId in after.targets &&
            Carries(after.targets[t.targetId], t.replyText.value, t.timestamp) &&
            var was := db.targets[t.targetId];
            c.IsUnsubscribeReply(t.replyText.value) &&
            !(was.lastReplyText.Some? && TrimSpace(was.lastReplyText.value) == TrimSpace(t.replyText.value)) ==>
              t.campaignId in db.campaigns && (db.campaigns[t.campaignId].tenant, t.phone) in after.blocked
  {
    if t.targetId in db.targets && Carries(db.targets[t.targetId], t.replyText.value, t.timestamp) {
      KnownReplyLeavesNoTrace(c, parse, db, now, r, ch, t);
    } else {
      OtherReplyIsObserved(c, parse, db, now, r, ch, t);
      var _ := OtherReplyIsRegistered(c, parse, db, now, r, ch, t);
    }
  }
}
