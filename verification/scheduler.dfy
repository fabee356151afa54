/** The scheduler: lists the campaigns that are due, then starts each draft among them by a guarded update. */
module Scheduling {
  import opened Domain
  import opened Settings
  import opened Tables
  import opened Protocol
  import opened Environments

  /** Every due draft outside `left` started, everything else as it was. */
  function Started(db: Db, now: Time, left: set<Uuid>): Db {
    db.(campaigns := map id | id in db.campaigns ::
          if id !in left && db.campaigns[id].status == Draft && ReadyToStart(db.campaigns[id], now)
          then db.campaigns[id].(status := Processing) else db.campaigns[id])
  }

  class SchedulerWorker {
    const env: Environment
    var isRunning: bool

    constructor (env: Environment)
      ensures this.env == env && !isRunning
    {
      this.env := env;
      isRunning := false;
    }

    /**
     One check, unless one is under way. Whatever runs between listing and starting, a check is a
     stretch of a protocol run; undisturbed, it starts exactly the due drafts.
     */
    method CheckAndStartCampaigns(others: nat -> seq<Step>, up: nat -> bool)
      requires env.Valid()
      modifies this`isRunning, env`trace, env`world, env.repo
      ensures env.Valid() && isRunning == old(isRunning) && old(env.trace) <= env.trace
      ensures old(isRunning) ==> env.world == old(env.world) && env.repo.Snapshot() == old(env.repo.Snapshot())
      ensures !old(isRunning) && (forall i: nat :: others(i) == [] && up(i)) ==>
                env.repo.Snapshot() == Started(old(env.repo.Snapshot()), old(env.world.now), {})
    {
      if isRunning {
        return;
      }
      isRunning := true;
      ghost var _ := env.Interleave(others(0));
      var listed := env.repo.GetActiveCampaignsReadyToStart(up(0), env.world.now);
      if listed.Err? {
        isRunning := false;
        return;
      }
      ghost var before := env.world.db;
      env.RecordOther(ListReady);
      StartAll(listed.value, others, up, before);
      isRunning := false;
    }

    /** One start call, made after whatever else ran since the listing. */
    method StartOne(id: Uuid, others: seq<Step>, up: bool)
      requires env.Valid() && id in env.world.ready
      modifies env`trace, env`world, env.repo
      ensures env.Valid() && old(env.world.ready) <= env.world.ready && old(env.trace) <= env.trace
      ensures others == [] && up ==> env.world.db == Tables.StartCampaign(old(env.world.db), id)
    {
      ghost var _ := env.Interleave(others);
      var ok := env.repo.StartCampaign(up, id);
      if ok {
        env.RecordOther(StartListed(id));
      }
    }

    method StartAll(listed: map<Uuid, Campaign>, others: nat -> seq<Step>, up: nat -> bool, ghost before: Db)
      requires env.Valid() && before == env.world.db
      requires listed == map id | id in before.campaigns &&
               ReadyToStart(before.campaigns[id], env.world.now) :: before.campaigns[id]
      requires forall id :: id in listed && listed[id].status == Draft ==> id in env.world.ready
      modifies env`trace, env`world, env.repo
      ensures env.Valid() && old(env.trace) <= env.trace
      ensures (forall i: nat :: others(i) == [] && up(i)) ==>
              env.repo.Snapshot() == Started(before, old(env.world.now), {})
    {
      var left, n := listed.Keys, 1;
      ghost var now := env.world.now;
      NothingStarted(before, now, left);
      while left != {}
        invariant env.Valid() && left <= listed.Keys && old(env.trace) <= env.trace
        invariant forall id :: id in listed && listed[id].status == Draft ==> id in env.world.ready
        invariant (forall i: nat :: others(i) == [] && up(i)) ==> env.world.db == Started(before, now, left)
        decreases left
      {
        var id :| id in left;
        if listed[id].status == Draft {
          StartOne(id, others(n), up(n));
        }
        OneMoreStarted(before, now, left, id);
        left, n := left - {id}, n + 1;
      }
    }
  }

  lemma NothingStarted(db: Db, now: Time, left: set<Uuid>)
    requires forall id :: id in db.campaigns && ReadyToStart(db.campaigns[id], now) ==> id in left
    ensures Started(db, now, left) == db
  {
    assert Started(db, now, left).campaigns == db.campaigns;
  }

  lemma OneMoreStarted(db: Db, now: Time, left: set<Uuid>, id: Uuid)
    requires id in left && id in db.campaigns && ReadyToStart(db.campaigns[id], now)
    ensures var before := Started(db, now, left);
            Started(db, now, left - {id}) == if db.campaigns[id].status == Draft then StartCampaign(before, id)
            else before
  {
    var before, after := Started(db, now, left), Started(db, now, left - {id});
    if db.campaigns[id].status == Draft {
      assert after.campaigns == StartCampaign(before, id).campaigns;
    } else {
      assert after.campaigns == before.campaigns;
    }
  }
}
