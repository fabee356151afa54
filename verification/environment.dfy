/**
 The world around one running component: the others take steps between its calls, and the trace
 records how the tables came to be what they are.
 */
module Environments {
  import opened Domain
  import opened Settings
  import opened Tables
  import opened Protocol
  import opened Repository
  import opened Runs
  import opened Frames

  /** The component whose own code runs, and whose steps nobody else takes. */
  datatype Actor = DoserNo(i: nat) | TheConsumer | Anyone

  predicate TakenBy(s: Step, me: Actor) {
    match me
    case DoserNo(i) => s.Doser? && s.i == i
    case TheConsumer => s.Elsewhere? && (s.o.ReadFailure? || s.o.ApplyFailure? || s.o.DropFailure?)
    case Anyone => false
  }

  /** The given steps of others in order; those not enabled when their turn comes are skipped. */
  function RunOthers(c: Config, me: Actor, w: World, steps: seq<Step>): World
    decreases |steps|
  {
    if steps == [] then w
    else if Enabled(c, w, steps[0]) && !TakenBy(steps[0], me) then RunOthers(c, me, Next(c, w, steps[0]), steps[1..])
    else RunOthers(c, me, w, steps[1..])
  }

  /**
   Every step of the others that is possible when its turn comes is taken,
   in the order given: whatever dosers other than
   the running one do, and anything but the handling of failures where the consumer runs.
   */
  lemma OthersRun(c: Config, me: Actor, w: World, s: Step, rest: seq<Step>)
    ensures var own := (s.Doser? && me == DoserNo(s.i)) ||
                       (me == TheConsumer && s.Elsewhere? &&
                        (s.o.ReadFailure? || s.o.ApplyFailure? || s.o.DropFailure?));
            RunOthers(c, me, w, [s] + rest) ==
            if Enabled(c, w, s) && !own then RunOthers(c, me, Next(c, w, s), rest) else RunOthers(c, me, w, rest)
  {
    assert ([s] + rest)[1..] == rest;
  }

  /**
   At any time the clock may advance, a campaign be stopped, chat mappings be replaced, a recipient be blocked and any
   status or reply be reported; a doser may list accounts by any clock reading taken so far when it is idle, and give up
   at any point.
   */
  lemma AnythingMayHappen(c: Config, w: World, to: Time, campaign: Uuid, mappings: map<ChatKey, ChatMapping>,
                          tenant: Uuid, phone: Phone, call: RepoCall, chosen: Uuid, i: nat, at: Time)
    requires !call.Retry? && i < |w.dosers|
    ensures w.now <= to ==> Enabled(c, w, Elsewhere(Advance(to))) && Next(c, w, Elsewhere(Advance(to))) == w.(now := to)
    ensures Enabled(c, w, Elsewhere(Stop(campaign))) && Enabled(c, w, Elsewhere(Report(call, chosen)))
    ensures Enabled(c, w, Elsewhere(SetMappings(mappings))) &&
            Next(c, w, Elsewhere(SetMappings(mappings))) == w.(db := w.db.(mappings := mappings))
    ensures Enabled(c, w, Elsewhere(Block(tenant, phone))) &&
            Next(c, w, Elsewhere(Block(tenant, phone))) == w.(db := w.db.(blocked := w.db.blocked + {(tenant, phone)}))
    ensures Enabled(c, w, Doser(i, GiveUp)) &&
            (w.dosers[i].Idle? && at <= w.now ==> Enabled(c, w, Doser(i, ListAccounts(tenant, at))))
  {
    assert w.log + [] == w.log;
  }

  function PhaseOf(w: World, me: Actor): Phase {
    if me.DoserNo? && me.i < |w.dosers| then w.dosers[me.i] else Idle
  }

  predicate NoneBy(steps: seq<Step>, me: Actor) {
    forall s :: s in steps ==> !TakenBy(s, me)
  }

  /** What the running component knows of the world stays true. */
  predicate Spared(before: World, after: World, me: Actor) {
    |after.dosers| == |before.dosers| && PhaseOf(after, me) == PhaseOf(before, me) &&
    (me.TheConsumer? ==> after.failure == before.failure) &&
    before.now <= after.now && before.ready <= after.ready && before.db.blocked <= after.db.blocked
  }

  lemma OtherStepSpares(c: Config, me: Actor, w: World, s: Step)
    requires Enabled(c, w, s) && !TakenBy(s, me)
    ensures Spared(w, Next(c, w, s), me)
  {
    BlockedGrows(c, w, s);
  }

  class Environment {
    const c: Config
    const me: Actor
    const repo: PostgresRepository
    ghost const start: World
    ghost var trace: seq<Step>
    var world: World

    constructor (c: Config, me: Actor, repo: PostgresRepository, world: World)
      requires (me.DoserNo? ==> me.i < |world.dosers|) && world.db == repo.Snapshot()
      ensures Valid() && start == world && trace == [] && this.world == world
      ensures this.c == c && this.me == me && this.repo == repo
    {
      this.c, this.me, this.repo, this.world := c, me, repo, world;
      start, trace := world, [];
    }

    ghost predicate Reached()
      reads this
    {
      Legal(c, start, trace) && Run(c, start, trace) == world && (me.DoserNo? ==> me.i < |world.dosers|)
    }

    ghost predicate Valid()
      reads this, repo
    {
      Reached() && world.db == repo.Snapshot()
    }

    /** The invariant of a doser's own environment. */
    ghost predicate Doses()
      reads this, repo
    {
      Valid() && me.DoserNo?
    }

    function Phase(): Phase
      reads this
    {
      PhaseOf(world, me)
    }

    method Take(s: Step)
      requires Reached() && Enabled(c, world, s) && !TakenBy(s, me)
      modifies this`trace, this`world
      ensures Reached() && Spared(old(world), world, me) && world == Next(c, old(world), s) && trace == old(trace) + [s]
    {
      RunAppend(c, start, trace, s);
      OtherStepSpares(c, me, world, s);
      trace, world := trace + [s], Next(c, world, s);
    }

    /** `more` is what the others did. */
    method Interleave(steps: seq<Step>) returns (ghost more: seq<Step>)
      requires Valid()
      modifies this`trace, this`world, repo
      ensures Valid() && Spared(old(world), world, me) && world == RunOthers(c, me, old(world), steps)
      ensures trace == old(trace) + more && NoneBy(more, me)
    {
      more := [];
      for i := 0 to |steps|
        invariant Reached() && Spared(old(world), world, me) && trace == old(trace) + more && NoneBy(more, me)
        invariant RunOthers(c, me, world, steps[i..]) == RunOthers(c, me, old(world), steps)
      {
        assert steps[i..][1..] == steps[i + 1..];
        if Enabled(c, world, steps[i]) && !TakenBy(steps[i], me) {
          Take(steps[i]);
          more := more + [steps[i]];
        }
      }
      repo.Become(world.db);
    }

    /** Enters a step the doser has just taken: it must have been enabled and have had that effect on the tables. */
    method Record(d: DoserStep)
      requires Reached() && me.DoserNo? && DoserEnabled(c, world, Phase(), d)
      requires repo.Snapshot() == DoserDb(c, world, Phase(), d)
      modifies this`trace, this`world
      ensures Valid() && Phase() == DoserPhase(c, old(world), old(Phase()), d)
      ensures world.now == old(world.now) && world.db == DoserDb(c, old(world), old(Phase()), d)
      ensures trace == old(trace) + [Doser(me.i, d)]
    {
      RunAppend(c, start, trace, Doser(me.i, d));
      trace, world := trace + [Doser(me.i, d)], DoserNext(c, world, me.i, d);
    }

    /** The same for a step of any other component. */
    method RecordOther(o: OtherStep)
      requires Reached() && OtherEnabled(c, world, o) && repo.Snapshot() == OtherDb(c, world, o)
      modifies this`trace, this`world
      ensures Valid() && world == OtherNext(c, old(world), o)
      ensures trace == old(trace) + [Elsewhere(o)]
    {
      RunAppend(c, start, trace, Elsewhere(o));
      trace, world := trace + [Elsewhere(o)], OtherNext(c, world, o);
    }
  }
}
